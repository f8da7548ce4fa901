/** Step keys of a workflow run.

    The n-th call that uses a name gets the key `name` for n = 1 and `name_n` for n >= 2.
    Replay is only meaningful when two calls never share a key; this module says exactly
    when that is so, both for a set of names and for the calls of one run.
 */
module Keys {

  function Digit(d: nat): (c: char)
    requires d < 10
    ensures '0' <= c <= '9'
  {
    '0' + d as char
  }

  /** Decimal printing of a number, most significant digit first. */
  function Decimal(n: nat): (s: string)
    ensures |s| > 0
    ensures forall i :: 0 <= i < |s| ==> '0' <= s[i] <= '9'
  {
    if n < 10 then [Digit(n)] else Decimal(n / 10) + [Digit(n % 10)]
  }

  /** What a string of digits stands for, read from left to right. */
  function Number(s: string): int {
    if s == [] then 0 else 10 * Number(s[..|s| - 1]) + (s[|s| - 1] as int - '0' as int)
  }

  /** A number is printed as its decimal digits, without a leading zero. */
  lemma {:induction false} DecimalValue(n: nat)
    ensures Number(Decimal(n)) == n
    ensures n > 0 ==> Decimal(n)[0] != '0'
  {
    var s := Decimal(n);
    if n < 10 {
      assert s[..0] == [];
    } else {
      DecimalValue(n / 10);
      assert s[..|s| - 1] == Decimal(n / 10) && s[0] == Decimal(n / 10)[0];
    }
  }

  lemma DecimalInjective(m: nat, n: nat)
    requires Decimal(m) == Decimal(n)
    ensures m == n
  {
    hide Decimal, Number;
    DecimalValue(m);
    DecimalValue(n);
  }

  /** The key of the n-th call under `name`. */
  function Key(name: string, n: nat): (key: string)
    requires n >= 1
  {
    if n == 1 then name else name + "_" + Decimal(n)
  }

  /** The first call under a name has the name itself as key, the n-th the name, an underscore and n. */
  lemma KeyForm(name: string, n: nat)
    requires n >= 1
    ensures n == 1 ==> Key(name, n) == name
    ensures n >= 2 ==> |name| + 1 < |Key(name, n)| && Key(name, n)[..|name| + 1] == name + "_"
                       && Number(Key(name, n)[|name| + 1..]) == n
  {
    hide Decimal, Number;
    DecimalValue(n);
    if n >= 2 {
      assert Key(name, n) == (name + "_") + Decimal(n);
      assert Key(name, n)[|name| + 1..] == Decimal(n);
    }
  }

  /** A string splits in one way only at an underscore followed by digits. */
  lemma SplitAtLastUnderscore(a: string, x: string, b: string, y: string)
    requires a + "_" + x == b + "_" + y
    requires '_' !in x && '_' !in y
    ensures a == b && x == y
  {
    var s := a + "_" + x;
    assert s == b + "_" + y;
    assert s[|a|] == '_' && s[|b|] == '_';
    assert |a| == |b|;
    assert a == s[..|a|] == b;
    assert x == s[|a| + 1..] == y;
  }

  /** Two calls clash only when one of the names is the other name with a number >= 2 appended. */
  lemma KeyClash(a: string, i: nat, b: string, j: nat)
    requires i >= 1 && j >= 1
    requires Key(a, i) == Key(b, j)
    ensures (a == b && i == j) || (i == 1 && j >= 2 && a == Key(b, j)) || (j == 1 && i >= 2 && b == Key(a, i))
  {
    if i >= 2 && j >= 2 {
      SplitAtLastUnderscore(a, Decimal(i), b, Decimal(j));
      DecimalInjective(i, j);
    } else if a == b {
      assert i == 1 ==> |Key(b, j)| == |b|;
      assert j == 1 ==> |Key(a, i)| == |a|;
    }
  }

  /** Keys determine (name, occurrence) on a set of names exactly when no name of the set is
      another name of the set followed by `_k` with k >= 2. */
  lemma KeyInjectiveIff(names: set<string>)
    ensures (forall a, i: nat, b, j: nat ::
               a in names && b in names && i >= 1 && j >= 1 && Key(a, i) == Key(b, j) ==> a == b && i == j)
            <==> (forall a, b, k: nat :: a in names && b in names && k >= 2 ==> a != Key(b, k))
  {
    if forall a, i: nat, b, j: nat ::
        a in names && b in names && i >= 1 && j >= 1 && Key(a, i) == Key(b, j) ==> a == b && i == j {
      forall a, b, k: nat | a in names && b in names && k >= 2
        ensures a != Key(b, k)
      {
        assert Key(a, 1) == a;
      }
    }
    if forall a, b, k: nat :: a in names && b in names && k >= 2 ==> a != Key(b, k) {
      forall a, i: nat, b, j: nat | a in names && b in names && i >= 1 && j >= 1 && Key(a, i) == Key(b, j)
        ensures a == b && i == j
      {
        KeyClash(a, i, b, j);
      }
    }
  }

  /** The condition of KeyInjectiveIff is needed: the second `load` clashes with `load_2`. */
  lemma TwoNamesClash()
    ensures Key("load", 2) == Key("load_2", 1)
    ensures AllocatedKeys(["load", "load_2", "load"]) == ["load", "load_2", "load_2"]
  {
    assert Decimal(2) == "2";
    var names := ["load", "load_2", "load"];
    assert names[..2] == ["load", "load_2"] && names[..2][..1] == ["load"];
    assert Occurrences(["load"], "load") == 1 by { assert ["load"][..0] == []; }
    assert "load" != "load_2" by { assert |"load"| != |"load_2"|; }
    assert Occurrences(["load", "load_2"], "load_2") == 1 by {
      assert ["load", "load_2"][..1] == ["load"] && ["load"][..0] == [];
    }
    assert Occurrences(names, "load") == 2;
    assert AllocatedKeys(["load"]) == ["load"];
    assert AllocatedKeys(["load", "load_2"]) == ["load", "load_2"];
  }

  /** How often `x` occurs in `names`. */
  function Occurrences(names: seq<string>, x: string): (n: nat)
    ensures x in names <==> n >= 1
  {
    if names == [] then 0
    else Occurrences(names[..|names| - 1], x) + (if names[|names| - 1] == x then 1 else 0)
  }

  /** The keys handed out by the calls of a run that uses `names` in this order. */
  function AllocatedKeys(names: seq<string>): (keys: seq<string>)
    ensures |keys| == |names|
  {
    if names == [] then []
    else
      var last := names[|names| - 1];
      AllocatedKeys(names[..|names| - 1]) + [Key(last, Occurrences(names, last))]
  }

  ghost predicate Distinct(keys: seq<string>) {
    forall i, j :: 0 <= i < j < |keys| ==> keys[i] != keys[j]
  }

  /** No name used in the run equals a key that a repeated use of another name gets in that run. */
  ghost predicate CollisionFree(names: seq<string>) {
    forall i, j, k: nat :: 0 <= i < |names| && 0 <= j < |names| && 2 <= k <= Occurrences(names, names[j])
      ==> names[i] != Key(names[j], k)
  }

  lemma {:induction false} AllocatedKeyAt(names: seq<string>, i: nat)
    requires i < |names|
    ensures names[i] in names[..i + 1]
    ensures AllocatedKeys(names)[i] == Key(names[i], Occurrences(names[..i + 1], names[i]))
  {
    assert names[..i + 1][i] == names[i];
    if i == |names| - 1 {
      assert names[..i + 1] == names;
    } else {
      var init := names[..|names| - 1];
      AllocatedKeyAt(init, i);
      assert init[..i + 1] == names[..i + 1];
    }
  }

  /** Later calls never change the keys of earlier ones. */
  lemma {:induction false} AllocatedKeysPrefix(names: seq<string>, more: seq<string>)
    ensures AllocatedKeys(names + more)[..|names|] == AllocatedKeys(names)
  {
    forall i | 0 <= i < |names|
      ensures AllocatedKeys(names + more)[i] == AllocatedKeys(names)[i]
    {
      AllocatedKeyAt(names, i);
      AllocatedKeyAt(names + more, i);
      assert (names + more)[..i + 1] == names[..i + 1];
    }
  }

  lemma {:induction false} OccurrencesGrow(names: seq<string>, i: nat, j: nat, x: string)
    requires i <= j <= |names|
    ensures Occurrences(names[..i], x) <= Occurrences(names[..j], x)
    ensures i < j && names[j - 1] == x ==> Occurrences(names[..i], x) < Occurrences(names[..j], x)
    decreases j
  {
    if i < j {
      assert names[..j][..j - 1] == names[..j - 1];
      OccurrencesGrow(names, i, j - 1, x);
    }
  }

  /** Some call is the k-th one under `x`. */
  lemma {:induction false} KthOccurrence(names: seq<string>, x: string, k: nat) returns (q: nat)
    requires 1 <= k <= Occurrences(names, x)
    ensures q < |names| && names[q] == x && Occurrences(names[..q + 1], x) == k
  {
    var n := |names|;
    if names[n - 1] == x && Occurrences(names, x) == k {
      q := n - 1;
      assert names[..n] == names;
    } else {
      q := KthOccurrence(names[..n - 1], x, k);
      assert names[..n - 1][..q + 1] == names[..q + 1];
    }
  }

  /** The calls of a run get pairwise different keys exactly when its names are collision free. */
  lemma KeysDistinctIff(names: seq<string>)
    ensures Distinct(AllocatedKeys(names)) <==> CollisionFree(names)
  {
    if CollisionFree(names) { CollisionFreeKeysDistinct(names); }
    if Distinct(AllocatedKeys(names)) { DistinctKeysCollisionFree(names); }
  }

  /** The count of a name among the first `i + 1` calls, when call `i` uses it. */
  lemma OccurrenceNumber(names: seq<string>, i: nat)
    requires i < |names|
    ensures 1 <= Occurrences(names[..i + 1], names[i]) <= Occurrences(names, names[i])
  {
    assert names[..i + 1][i] == names[i];
    OccurrencesGrow(names, i + 1, |names|, names[i]);
    assert names[..|names|] == names;
  }

  lemma CollisionFreeAt(names: seq<string>, i: nat, j: nat, k: nat)
    requires CollisionFree(names) && i < |names| && j < |names|
    requires 2 <= k <= Occurrences(names, names[j])
    ensures names[i] != Key(names[j], k)
  {
  }

  /** Two positions of a collision-free run get different keys. */
  lemma KeysDifferAt(names: seq<string>, i: nat, j: nat)
    requires CollisionFree(names) && i < j < |names|
    ensures AllocatedKeys(names)[i] != AllocatedKeys(names)[j]
  {
    hide Key, AllocatedKeys, Occurrences, CollisionFree;
    var m, n := Occurrences(names[..i + 1], names[i]), Occurrences(names[..j + 1], names[j]);
    AllocatedKeyAt(names, i);
    AllocatedKeyAt(names, j);
    OccurrenceNumber(names, i);
    OccurrenceNumber(names, j);
    if Key(names[i], m) == Key(names[j], n) {
      KeyClash(names[i], m, names[j], n);
      if m == 1 && n >= 2 {
        CollisionFreeAt(names, i, j, n);
      } else if n == 1 && m >= 2 {
        CollisionFreeAt(names, j, i, m);
      } else {
        OccurrencesGrow(names, i + 1, j + 1, names[j]);
      }
    }
  }

  lemma CollisionFreeKeysDistinct(names: seq<string>)
    requires CollisionFree(names)
    ensures Distinct(AllocatedKeys(names))
  {
    hide CollisionFree;
    forall i, j | 0 <= i < j < |AllocatedKeys(names)|
      ensures AllocatedKeys(names)[i] != AllocatedKeys(names)[j]
    {
      KeysDifferAt(names, i, j);
    }
  }

  lemma DistinctKeysCollisionFree(names: seq<string>)
    requires Distinct(AllocatedKeys(names))
    ensures CollisionFree(names)
  {
    forall i, j, k: nat | 0 <= i < |names| && 0 <= j < |names| && 2 <= k <= Occurrences(names, names[j])
      ensures names[i] != Key(names[j], k)
    {
      hide Decimal;
      var p := KthOccurrence(names, names[i], 1);
      var q := KthOccurrence(names, names[j], k);
      AllocatedKeyAt(names, p);
      AllocatedKeyAt(names, q);
    }
  }

  lemma CollisionFreePrefix(names: seq<string>, more: seq<string>)
    requires CollisionFree(names + more)
    ensures CollisionFree(names)
  {
    forall i, j, k: nat | 0 <= i < |names| && 0 <= j < |names| && 2 <= k <= Occurrences(names, names[j])
      ensures names[i] != Key(names[j], k)
    {
      var all := names + more;
      assert all[..|names|] == names && all[..|all|] == all;
      OccurrencesGrow(all, |names|, |all|, names[j]);
      assert all[i] == names[i] && all[j] == names[j];
    }
  }
}

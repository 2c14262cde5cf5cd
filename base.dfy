/**
 * Small value-level helpers shared by the whole model: an Option type and the
 * list/integer operations of the host language that the add-on relies on
 * (floor modulo, negative list indexing, `list.index`, `list.remove`,
 * `list(set(...))`).
 */
module Base {

  datatype Option<+T> = None | Some(value: T)

  /** The host language's `a % b`: the remainder takes the sign of the divisor. */
  function FloorMod(a: int, b: int): (r: int)
    requires b != 0
    ensures b > 0 ==> 0 <= r < b
    ensures b < 0 ==> b < r <= 0
    ensures b > 0 ==> r == a % b
    ensures b == -1 ==> r == 0
  {
    if b > 0 then a % b
    else
      var m := a % -b;
      if m == 0 then 0 else m + b
  }

  lemma ModSmall(a: int, n: int)
    requires 0 <= a < n
    ensures a % n == a
  {
  }

  lemma ModTop(n: int)
    requires n > 0
    ensures n % n == 0 && (-1) % n == n - 1
  {
    assert n == 1 * n + 0;
    assert -1 == (-1) * n + (n - 1);
  }

  /** Moving one step forward and one step back modulo `n` returns to the start, and conversely. */
  lemma FloorModStepBack(c: int, n: int)
    requires 0 <= c < n
    ensures FloorMod(FloorMod(c + 1, n) - 1, n) == c
    ensures FloorMod(FloorMod(c - 1, n) + 1, n) == c
  {
    ModTop(n);
    ModSmall(c, n);
    if c + 1 < n {
      ModSmall(c + 1, n);
    }
    if c > 0 {
      ModSmall(c - 1, n);
    }
  }

  /** `s[k]` with negative indexing counted from the end; None where it raises IndexError. */
  function At<T>(s: seq<T>, k: int): (r: Option<T>)
    ensures r.None? <==> !(-|s| <= k < |s|)
    ensures 0 <= k < |s| ==> r == Some(s[k])
    ensures -|s| <= k < 0 ==> r == Some(s[|s| + k])
  {
    if 0 <= k < |s| then Some(s[k])
    else if -|s| <= k < 0 then Some(s[|s| + k])
    else None
  }

  predicate NoDups<T(==)>(s: seq<T>)
  {
    forall i, j :: 0 <= i < j < |s| ==> s[i] != s[j]
  }

  /** `s.index(x)`: the first position of `x`, None where it raises ValueError. */
  function IndexOf<T(==)>(s: seq<T>, x: T): (r: Option<nat>)
    ensures r.None? <==> x !in s
    ensures r.Some? ==> r.value < |s| && s[r.value] == x && x !in s[..r.value]
  {
    if |s| == 0 then None
    else if s[0] == x then Some(0)
    else match IndexOf(s[1..], x)
      case None => None
      case Some(k) => assert s[..k + 1] == [s[0]] + s[1..][..k]; Some(k + 1)
  }

  /** No position before `s.index(x)` holds `x`. */
  lemma IndexOfFirst<T>(s: seq<T>, x: T)
    ensures IndexOf(s, x).Some? ==> forall k :: 0 <= k < IndexOf(s, x).value ==> s[k] != x
  {
    if IndexOf(s, x).Some? {
      var i := IndexOf(s, x).value;
      assert forall k :: 0 <= k < i ==> s[k] == s[..i][k];
    }
  }

  /** Without duplicates, `s.index(s[i])` is `i`. */
  lemma IndexOfNoDups<T>(s: seq<T>, i: nat)
    requires NoDups(s) && i < |s|
    ensures IndexOf(s, s[i]) == Some(i)
  {
  }

  /** `s.remove(x)`: drops the first occurrence of `x`; `s` itself when `x` is absent. */
  function RemoveFirst<T(==)>(s: seq<T>, x: T): (r: seq<T>)
  {
    if |s| == 0 then []
    else if s[0] == x then s[1..]
    else [s[0]] + RemoveFirst(s[1..], x)
  }

  lemma {:induction false} RemoveFirstContents<T>(s: seq<T>, x: T)
    ensures x !in s ==> RemoveFirst(s, x) == s
    ensures x in s ==> |RemoveFirst(s, x)| == |s| - 1
    ensures multiset(RemoveFirst(s, x)) == multiset(s) - multiset{x}
  {
    if |s| > 0 {
      if s[0] == x {
        assert s == [s[0]] + s[1..];
      } else {
        RemoveFirstContents(s[1..], x);
        assert s == [s[0]] + s[1..];
      }
    }
  }

  lemma NoDupsCons<T>(h: T, t: seq<T>)
    ensures NoDups([h] + t) <==> h !in t && NoDups(t)
  {
    var s := [h] + t;
    if h !in t && NoDups(t) {
      forall i, j | 0 <= i < j < |s| ensures s[i] != s[j] {
        if i == 0 { assert s[j] == t[j - 1]; } else { assert s[i] == t[i - 1] && s[j] == t[j - 1]; }
      }
    }
    if NoDups(s) {
      forall i, j | 0 <= i < j < |t| ensures t[i] != t[j] {
        assert t[i] == s[i + 1] && t[j] == s[j + 1];
      }
      forall k | 0 <= k < |t| ensures t[k] != h {
        assert t[k] == s[k + 1] && s[0] == h;
        assert s[0] != s[k + 1];
      }
    }
  }

  /** Removal keeps every other element and adds none. */
  lemma RemoveFirstMembers<T>(s: seq<T>, x: T)
    ensures forall y :: y in RemoveFirst(s, x) ==> y in s
    ensures forall y :: y in s && y != x ==> y in RemoveFirst(s, x)
  {
    RemoveFirstContents(s, x);
    var r := RemoveFirst(s, x);
    forall y | y in r ensures y in s {
      assert multiset(r)[y] > 0;
    }
    forall y | y in s && y != x ensures y in r {
      assert multiset(s)[y] > 0;
    }
  }

  /** Without duplicates, removing the first occurrence removes every occurrence. */
  lemma {:induction false} RemoveFirstNoDups<T>(s: seq<T>, x: T)
    requires NoDups(s)
    ensures NoDups(RemoveFirst(s, x))
    ensures x !in RemoveFirst(s, x)
  {
    if |s| > 0 {
      assert s == [s[0]] + s[1..];
      NoDupsCons(s[0], s[1..]);
      if s[0] != x {
        RemoveFirstNoDups(s[1..], x);
        RemoveFirstMembers(s[1..], x);
        NoDupsCons(s[0], RemoveFirst(s[1..], x));
      }
    }
  }

  lemma NoDupsSnoc<T>(s: seq<T>, x: T)
    requires NoDups(s) && x !in s
    ensures NoDups(s + [x])
  {
    var t := s + [x];
    forall i, j | 0 <= i < j < |t| ensures t[i] != t[j] {
      if j == |s| { assert t[i] == s[i]; } else { assert t[i] == s[i] && t[j] == s[j]; }
    }
  }

  /** Removing the element just appended (and absent before) gives back the original. */
  lemma {:induction false} RemoveFirstSnoc<T>(s: seq<T>, x: T)
    requires x !in s
    ensures RemoveFirst(s + [x], x) == s
  {
    if |s| == 0 {
      assert s + [x] == [x];
    } else {
      assert (s + [x])[1..] == s[1..] + [x];
      RemoveFirstSnoc(s[1..], x);
      assert s == [s[0]] + s[1..];
    }
  }

  /** The distinct elements of `s`, each kept at its first occurrence. */
  function Dedup<T(==,!new)>(s: seq<T>): (r: seq<T>)
    ensures NoDups(r)
    ensures forall x :: x in r <==> x in s
    decreases |s|
  {
    if |s| == 0 then []
    else
      var rest := Dedup(s[..|s| - 1]);
      var last := s[|s| - 1];
      assert forall x :: x in s <==> x in s[..|s| - 1] || x == last by {
        assert s == s[..|s| - 1] + [last];
      }
      if last in rest then rest else rest + [last]
  }
}

/** Names of containers: permutations of fifteen letters, taken in the order of std::next_permutation. */
module ContainerNames {
  import opened Basics

  const FIRST_NAME: string := "abcdefghijklmno"
  const LAST_NAME: string := "onmlkjihgfedcba"

  /** A name is a rearrangement of the first one. */
  ghost predicate IsName(s: string) {
    multiset(s) == multiset(FIRST_NAME)
  }

  /** Dictionary order, on strings of equal length. */
  ghost predicate Before(a: string, b: string) {
    |a| == |b| && exists k: nat :: DiffersAt(a, b, k)
  }

  /** Equal up to position k, where a has the smaller letter. */
  ghost predicate DiffersAt(a: string, b: string, k: nat) {
    k < |a| && k < |b| && a[k] < b[k] && forall i | 0 <= i < k :: a[i] == b[i]
  }

  lemma BeforeTransitive(a: string, b: string, c: string)
    requires Before(a, b) && Before(b, c)
    ensures Before(a, c)
  {
    var k: nat :| DiffersAt(a, b, k);
    var l: nat :| DiffersAt(b, c, l);
    assert DiffersAt(a, c, if k < l then k else l);
  }

  lemma BeforeIrreflexive(a: string)
    ensures !Before(a, a)
  {
  }

  /** The last position whose letter is smaller than the next, or |s| if there is none. */
  function LastAscent(s: string, i: nat): (r: nat)
    requires i <= |s|
    ensures r == |s| || (r + 1 < |s| && r < i && s[r] < s[r + 1])
    ensures r == |s| ==> forall j | 0 <= j < i && j + 1 < |s| :: s[j] >= s[j + 1]
    decreases i
  {
    if i == 0 then |s|
    else if i < |s| && s[i - 1] < s[i] then i - 1
    else LastAscent(s, i - 1)
  }

  /** The last position with a letter greater than c, searching down from i. */
  function LastGreater(s: string, c: char, i: nat): (r: nat)
    requires i < |s| && exists j :: 0 <= j <= i && s[j] > c
    ensures r <= i && s[r] > c
    ensures forall k | r < k <= i :: s[k] <= c
    decreases i
  {
    if s[i] > c then i else LastGreater(s, c, i - 1)
  }

  function Reverse(s: string): (r: string)
    ensures |r| == |s|
  {
    if s == "" then "" else Reverse(s[1..]) + [s[0]]
  }

  function Swap(s: string, i: nat, j: nat): string
    requires i < |s| && j < |s|
  {
    s[i := s[j]][j := s[i]]
  }

  /** std::next_permutation: the next arrangement and true, or after the last one the first and false. */
  function NextPermutation(s: string): (string, bool) {
    var i := LastAscent(s, |s|);
    if i == |s| then (Reverse(s), false)
    else
      var j := LastGreater(s, s[i], |s| - 1);
      var t := Swap(s, i, j);
      (t[..i + 1] + Reverse(t[i + 1..]), true)
  }

  predicate NonIncreasing(s: string) {
    forall i | 0 <= i && i + 1 < |s| :: s[i] >= s[i + 1]
  }

  lemma ReverseMultiset(s: string)
    ensures multiset(Reverse(s)) == multiset(s)
  {
    if s != "" {
      ReverseMultiset(s[1..]);
      assert s == [s[0]] + s[1..];
    }
  }

  lemma SwapMultiset(s: string, i: nat, j: nat)
    requires i < |s| && j < |s|
    ensures multiset(Swap(s, i, j)) == multiset(s)
  {
  }

  /** The next name is a rearrangement; it comes later in the dictionary unless the old one was non-increasing, the
      last. */
  lemma NextIsLater(s: string)
    ensures var n := NextPermutation(s);
      && multiset(n.0) == multiset(s)
      && (n.1 <==> !NonIncreasing(s))
      && (n.1 ==> Before(s, n.0))
  {
    var i := LastAscent(s, |s|);
    hide LastGreater, Reverse, LastAscent;
    if i == |s| {
      ReverseMultiset(s);
    } else {
      hide Before;
      var j := LastGreater(s, s[i], |s| - 1);
      LaterPosition(s, i, j);
      SwapMultiset(s, i, j);
      TurnedRound(Swap(s, i, j), i + 1);
      SwappedIsLater(s, i, j);
    }
  }

  lemma TurnedRound(t: string, k: nat)
    requires k <= |t|
    ensures multiset(t[..k] + Reverse(t[k..])) == multiset(t)
  {
    ReverseMultiset(t[k..]);
    hide Reverse;
    assert t == t[..k] + t[k..];
  }

  lemma SwappedIsLater(s: string, i: nat, j: nat)
    requires i < j < |s| && s[i] < s[j]
    ensures Before(s, Swap(s, i, j)[..i + 1] + Reverse(Swap(s, i, j)[i + 1..]))
  {
    hide Reverse;
    assert DiffersAt(s, Swap(s, i, j)[..i + 1] + Reverse(Swap(s, i, j)[i + 1..]), i);
  }

  /** The letter swapped in comes from behind. */
  lemma LaterPosition(s: string, i: nat, j: nat)
    requires i == LastAscent(s, |s|) && i < |s| && j == LastGreater(s, s[i], |s| - 1)
    ensures i < j
  {
    GreaterIsLast(s, s[i], |s| - 1, i + 1);
  }

  lemma {:induction false} GreaterIsLast(s: string, c: char, i: nat, k: nat)
    requires i < |s| && k <= i && s[k] > c
    ensures k <= LastGreater(s, c, i)
    decreases i
  {
    if s[i] <= c {
      GreaterIsLast(s, c, i - 1, k);
    }
  }

  lemma {:induction false} ReverseAt(s: string, k: nat)
    requires k < |s|
    ensures Reverse(s)[k] == s[|s| - 1 - k]
  {
    if k < |s| - 1 {
      ReverseAt(s[1..], k);
    }
  }

  predicate NonDecreasing(s: string) {
    forall i | 0 <= i && i + 1 < |s| :: s[i] <= s[i + 1]
  }

  lemma {:induction false} Descends(s: string, i: nat, j: nat)
    requires NonIncreasing(s) && i <= j < |s|
    ensures s[i] >= s[j]
    decreases j - i
  {
    if i < j {
      Descends(s, i + 1, j);
    }
  }

  lemma {:induction false} Ascends(s: string, i: nat, j: nat)
    requires NonDecreasing(s) && i <= j < |s|
    ensures s[i] <= s[j]
    decreases j - i
  {
    if i < j {
      Ascends(s, i + 1, j);
    }
  }

  lemma ReverseAscends(s: string)
    requires NonIncreasing(s)
    ensures NonDecreasing(Reverse(s))
  {
    var r := Reverse(s);
    forall i | 0 <= i && i + 1 < |r|
      ensures r[i] <= r[i + 1]
    {
      ReverseAt(s, i);
      ReverseAt(s, i + 1);
    }
  }

  /** What follows equal beginnings of two arrangements are arrangements of each other. */
  lemma SameRest(s: string, t: string, k: nat)
    requires multiset(s) == multiset(t) && k <= |s| && k <= |t| && s[..k] == t[..k]
    ensures multiset(s[k..]) == multiset(t[k..]) && |s| == |t|
  {
    assert s == s[..k] + s[k..] && t == t[..k] + t[k..];
    forall c: char
      ensures multiset(s[k..])[c] == multiset(t[k..])[c]
    {
      assert multiset(s)[c] == multiset(s[..k])[c] + multiset(s[k..])[c];
      assert multiset(t)[c] == multiset(t[..k])[c] + multiset(t[k..])[c];
    }
    assert |multiset(s)| == |s| && |multiset(t)| == |t|;
  }

  /** Every letter of an arrangement has its place in another. */
  lemma PlaceOf(s: string, t: string, k: nat) returns (j: nat)
    requires multiset(s) == multiset(t) && k < |t|
    ensures j < |s| && s[j] == t[k]
  {
    assert t[k] in multiset(t);
    j :| j < |s| && s[j] == t[k];
  }

  /** A non-decreasing arrangement is the first of all. */
  lemma {:induction false} SortedIsFirst(a: string, b: string)
    requires NonDecreasing(a) && multiset(a) == multiset(b)
    ensures a == b || Before(a, b)
    decreases |a|
  {
    SameRest(a, b, 0);
    if a != "" {
      var j := PlaceOf(a, b, 0);
      Ascends(a, 0, j);
      if a[0] == b[0] {
        SameRest(a, b, 1);
        SortedIsFirst(a[1..], b[1..]);
        BeforeBehind(a, b, 1);
      } else {
        assert DiffersAt(a, b, 0);
      }
    }
  }

  /** The order of what follows equal beginnings is that of the whole. */
  lemma BeforeBehind(a: string, b: string, k: nat)
    requires k <= |a| == |b| && a[..k] == b[..k]
    ensures Before(a[k..], b[k..]) ==> Before(a, b)
    ensures a[k..] == b[k..] ==> a == b
  {
    if Before(a[k..], b[k..]) {
      var l: nat :| DiffersAt(a[k..], b[k..], l);
      forall i | 0 <= i < k + l
        ensures a[i] == b[i]
      {
        if i < k {
          assert a[..k][i] == b[..k][i];
        } else {
          assert a[k..][i - k] == b[k..][i - k];
        }
      }
      assert DiffersAt(a, b, k + l);
    }
    if a[k..] == b[k..] {
      assert a == a[..k] + a[k..] && b == b[..k] + b[k..];
    }
  }

  /** Behind the last ascent the letters do not ascend, nor when one of them is swapped for the smaller one there. */
  lemma SwappedRest(s: string, i: nat, j: nat)
    requires i == LastAscent(s, |s|) && i < |s| && j == LastGreater(s, s[i], |s| - 1)
    ensures NonIncreasing(s[i + 1..]) && NonIncreasing(Swap(s, i, j)[i + 1..]) && i < j
    ensures forall k | i < k < |s| && s[k] > s[i] :: s[k] >= s[j]
  {
    LaterPosition(s, i, j);
    AscentIsLast(s, |s|, i);
    var rest := s[i + 1..];
    assert NonIncreasing(rest) by {
      forall k | 0 <= k && k + 1 < |rest|
        ensures rest[k] >= rest[k + 1]
      {
        assert rest[k] == s[i + 1 + k] && rest[k + 1] == s[i + 1 + (k + 1)];
      }
    }
    forall k | i < k < |s| && s[k] > s[i]
      ensures s[k] >= s[j]
    {
      Descends(rest, k - i - 1, j - i - 1);
    }
    SwapDescends(s, i, j);
  }

  lemma SwapDescends(s: string, i: nat, j: nat)
    requires i < j < |s| && NonIncreasing(s[i + 1..]) && s[j] > s[i] && forall k | j < k < |s| :: s[k] <= s[i]
    ensures NonIncreasing(Swap(s, i, j)[i + 1..])
  {
    var rest, swapped := s[i + 1..], Swap(s, i, j)[i + 1..];
    forall k | 0 <= k && k + 1 < |swapped|
      ensures swapped[k] >= swapped[k + 1]
    {
      assert rest[k] >= rest[k + 1];
      assert swapped[k] == if i + 1 + k == j then s[i] else rest[k];
      assert swapped[k + 1] == if i + 1 + (k + 1) == j then s[i] else rest[k + 1];
    }
  }

  lemma {:induction false} AscentIsLast(s: string, n: nat, i: nat)
    requires n <= |s| && i == LastAscent(s, n) && i < |s|
    ensures forall k | i < k < n && k + 1 < |s| :: s[k] >= s[k + 1]
    decreases n
  {
    if n > 0 && !(n < |s| && s[n - 1] < s[n]) {
      AscentIsLast(s, n - 1, i);
    }
  }

  /** Nothing lies between a name and the next one: whatever arrangement of its letters comes later is the next one or
      comes after that, and after the last one there is none. */
  lemma NextIsNext(s: string, t: string)
    requires multiset(t) == multiset(s) && Before(s, t)
    ensures var n := NextPermutation(s); n.1 && (t == n.0 || Before(n.0, t))
  {
    var k: nat :| DiffersAt(s, t, k);
    assert s[..k] == t[..k];
    SameRest(s, t, k);
    var j := PlaceOf(s[k..], t[k..], 0);
    NextIsLater(s);
    var i := LastAscent(s, |s|);
    if i == |s| {
      Descends(s, k, k + j);
      assert false;
    } else {
      LaterAt(s, t, k, k + j);
    }
  }

  /** The swapped name, up to where the rest is turned round, and the rest. */
  lemma NextParts(s: string, i: nat, j: nat)
    requires i == LastAscent(s, |s|) && i < |s| && j == LastGreater(s, s[i], |s| - 1)
    ensures var n := NextPermutation(s);
      && n.1 && multiset(n.0) == multiset(s) && |n.0| == |s| && n.0[..i] == s[..i] && n.0[i] == s[j]
      && NonDecreasing(n.0[i + 1..])
  {
    hide LastAscent, LastGreater, NonDecreasing, NonIncreasing, Reverse, Before;
    NextIsLater(s);
    SwappedRest(s, i, j);
    var swapped := Swap(s, i, j);
    ReverseAscends(swapped[i + 1..]);
    PartsOf(swapped[..i + 1], Reverse(swapped[i + 1..]), i);
    assert swapped[..i] == s[..i];
  }

  lemma PartsOf(a: string, b: string, i: nat)
    requires |a| == i + 1
    ensures (a + b)[..i] == a[..i] && (a + b)[i] == a[i] && (a + b)[i + 1..] == b
  {
  }

  /** An arrangement t that first differs from s no later than n does is n or later. */
  lemma NextOrLater(s: string, t: string, n: string, i: nat, k: nat)
    requires k <= i < |s| == |t| == |n| && multiset(t) == multiset(n)
    requires DiffersAt(s, t, k) && n[..i] == s[..i] && NonDecreasing(n[i + 1..]) && (k == i ==> n[i] <= t[i])
    ensures t == n || Before(n, t)
  {
    assert forall m | 0 <= m < i :: n[m] == n[..i][m] == s[..i][m];
    if k < i || n[i] < t[i] {
      assert DiffersAt(n, t, k);
    } else {
      assert n[..i + 1] == t[..i + 1];
      SameRest(n, t, i + 1);
      SortedIsFirst(n[i + 1..], t[i + 1..]);
      BeforeBehind(n, t, i + 1);
    }
  }

  /** From the last ascent on, a letter after it is no greater than those before it. */
  lemma NotBehind(s: string, i: nat, k: nat, l: nat)
    requires i < k <= l < |s| && NonIncreasing(s[i + 1..])
    ensures s[l] <= s[k]
  {
    Descends(s[i + 1..], k - i - 1, l - i - 1);
  }

  lemma LaterAt(s: string, t: string, k: nat, l: nat)
    requires multiset(t) == multiset(s) && DiffersAt(s, t, k) && |s| == |t|
    requires LastAscent(s, |s|) < |s| && k <= l < |s| && s[l] == t[k]
    ensures var n := NextPermutation(s); n.1 && (t == n.0 || Before(n.0, t))
  {
    hide *;
    var i := LastAscent(s, |s|);
    AscentIs(s);
    var j := LastGreater(s, s[i], |s| - 1);
    NextParts(s, i, j);
    SwappedRest(s, i, j);
    DiffersIs(s, t, k);
    if k > i {
      NotBehind(s, i, k, l);
      assert false;
    }
    NextOrLater(s, t, NextPermutation(s).0, i, k);
  }

  lemma AscentIs(s: string)
    ensures var i := LastAscent(s, |s|); i < |s| ==> i + 1 < |s| && s[i] < s[i + 1]
  {
  }

  lemma DiffersIs(a: string, b: string, k: nat)
    requires DiffersAt(a, b, k)
    ensures k < |a| && k < |b| && a[k] < b[k]
  {
  }

  /** A non-increasing name is followed by its reverse. */
  lemma NextOfLast(s: string, t: string)
    requires NonIncreasing(s) && |t| == |s| && forall k | 0 <= k < |s| :: t[k] == s[|s| - 1 - k]
    ensures NextPermutation(s) == (t, false)
  {
    NextIsLater(s);
    hide Reverse, LastAscent, LastGreater;
    assert LastAscent(s, |s|) == |s|;
    forall k | 0 <= k < |s|
      ensures Reverse(s)[k] == t[k]
    {
      ReverseAt(s, k);
    }
    assert Reverse(s) == t;
  }

  /** The letters of the first and the last name, place by place. */
  lemma NameLetters(k: nat)
    requires k < 15
    ensures |FIRST_NAME| == |LAST_NAME| == 15
    ensures FIRST_NAME[k] == ('a' as int + k) as char && LAST_NAME[k] == ('o' as int - k) as char
  {
  }

  lemma LastIsReversedFirst(first: string, last: string)
    requires first == FIRST_NAME && last == LAST_NAME
    ensures |first| == |last| == 15 && NonIncreasing(last)
    ensures forall k | 0 <= k < 15 :: first[k] == last[14 - k]
    ensures DiffersAt(first, last, 0)
  {
    hide NextPermutation;
    NameLetters(0);
    forall k: nat | k + 1 < 15
      ensures last[k] >= last[k + 1]
    {
      NameLetters(k);
      NameLetters(k + 1);
    }
    forall k: nat | k < 15
      ensures first[k] == last[14 - k]
    {
      NameLetters(k);
      NameLetters(14 - k);
    }
  }

  /** The last name is followed by the first: the name of the first container comes up again. */
  lemma NamesRunOut(first: string, last: string)
    requires first == FIRST_NAME && last == LAST_NAME
    ensures NextPermutation(last) == (first, false) && Before(first, last)
  {
    LastIsReversedFirst(first, last);
    NextOfLast(last, first);
  }
}

/** Shared vocabulary of the dashboard model: optional values, the loosely
    typed records the pages pass around, the `Array.prototype.filter`
    primitive with its properties, substring search (`String.includes`),
    decimal printing of integers and first-letter capitalisation. */
module Common {

  datatype Option<+T> = None | Some(value: T)

  /** A JavaScript value as it occurs in the dashboard's data rows. */
  datatype Value = Num(n: real) | Str(s: string) | Undefined

  /** One own property of a plain object; a record lists them in
      `Object.keys` order. */
  datatype Field = Field(key: string, value: Value)
  type Record = seq<Field>

  /** `Object.keys(r)`. */
  function Keys(r: Record): (ks: seq<string>)
    ensures |ks| == |r|
    ensures forall i :: 0 <= i < |r| ==> ks[i] == r[i].key
  {
    if r == [] then [] else [r[0].key] + Keys(r[1..])
  }

  /** `r[key]`: the value of the first property named `key`, or `undefined`. */
  function Lookup(r: Record, key: string): (v: Value)
    ensures v != Undefined ==> exists i :: 0 <= i < |r| && r[i].key == key && r[i].value == v
    ensures (forall i :: 0 <= i < |r| ==> r[i].key != key) ==> v == Undefined
    ensures forall i :: 0 <= i < |r| && r[i].key == key && (forall j :: 0 <= j < i ==> r[j].key != key) ==> v == r[i].value
  {
    if r == [] then Undefined
    else if r[0].key == key then r[0].value
    else Lookup(r[1..], key)
  }

  /** `s.filter(p)`: the elements satisfying `p`, in their original order. */
  function Filter<T>(s: seq<T>, p: T -> bool): (r: seq<T>)
    ensures |r| <= |s|
    ensures forall i :: 0 <= i < |r| ==> p(r[i])
  {
    if s == [] then []
    else if p(s[0]) then [s[0]] + Filter(s[1..], p)
    else Filter(s[1..], p)
  }

  /** `a` is obtained from `b` by deleting elements (order kept). */
  predicate IsSubsequence<T(==)>(a: seq<T>, b: seq<T>)
    decreases |b|
  {
    if a == [] then true
    else if b == [] then false
    else (a[0] == b[0] && IsSubsequence(a[1..], b[1..])) || IsSubsequence(a, b[1..])
  }

  lemma {:induction false} SubsequenceRefl<T>(s: seq<T>)
    ensures IsSubsequence(s, s)
  {
    if s != [] { SubsequenceRefl(s[1..]); }
  }

  /** Every element of a subsequence occurs in the larger sequence. */
  lemma {:induction false} SubsequenceMember<T>(a: seq<T>, b: seq<T>, k: int)
    requires IsSubsequence(a, b) && 0 <= k < |a|
    ensures a[k] in b
    decreases |b|
  {
    if a[0] == b[0] && IsSubsequence(a[1..], b[1..]) {
      if k > 0 { SubsequenceMember(a[1..], b[1..], k - 1); }
    } else {
      SubsequenceMember(a, b[1..], k);
    }
  }

  /** Deleting elements twice is deleting elements once. */
  lemma {:induction false} SubsequenceTrans<T>(a: seq<T>, b: seq<T>, c: seq<T>)
    requires IsSubsequence(a, b) && IsSubsequence(b, c)
    ensures IsSubsequence(a, c)
    decreases |c|
  {
    if a != [] {
      if IsSubsequence(b, c[1..]) {
        SubsequenceTrans(a, b, c[1..]);
      } else if a[0] == b[0] && IsSubsequence(a[1..], b[1..]) {
        SubsequenceTrans(a[1..], b[1..], c[1..]);
      } else {
        SubsequenceTrans(a, b[1..], c[1..]);
      }
    }
  }

  /** A subsequence stays one when the larger sequence grows at the end. */
  lemma {:induction false} SubsequenceExtend<T>(a: seq<T>, b: seq<T>, x: T)
    requires IsSubsequence(a, b)
    ensures IsSubsequence(a, b + [x])
    decreases |b|
  {
    if a != [] {
      assert (b + [x])[1..] == b[1..] + [x];
      if a[0] == b[0] && IsSubsequence(a[1..], b[1..]) {
        SubsequenceExtend(a[1..], b[1..], x);
      } else {
        SubsequenceExtend(a, b[1..], x);
      }
    }
  }

  /** Both sequences may grow by the same last element. */
  lemma {:induction false} SubsequenceSnoc<T>(a: seq<T>, b: seq<T>, x: T)
    requires IsSubsequence(a, b)
    ensures IsSubsequence(a + [x], b + [x])
    decreases |b|
  {
    if b == [] {
      assert a == [] && a + [x] == b + [x];
      SubsequenceRefl(a + [x]);
    } else {
      assert (b + [x])[1..] == b[1..] + [x];
      if a != [] && a[0] == b[0] && IsSubsequence(a[1..], b[1..]) {
        assert (a + [x])[1..] == a[1..] + [x];
        SubsequenceSnoc(a[1..], b[1..], x);
      } else {
        SubsequenceSnoc(a, b[1..], x);
      }
    }
  }

  /** No element occurs twice. */
  predicate Distinct<T(==)>(s: seq<T>)
  {
    forall i, j :: 0 <= i < j < |s| ==> s[i] != s[j]
  }

  /** In a sequence without repeats every element occurs once. */
  lemma {:induction false} DistinctCount<T>(s: seq<T>, x: T)
    requires Distinct(s)
    ensures multiset(s)[x] == if x in s then 1 else 0
  {
    if s != [] {
      assert s == [s[0]] + s[1..];
      assert Distinct(s[1..]) by {
        forall i, j | 0 <= i < j < |s[1..]| ensures s[1..][i] != s[1..][j] {
          assert s[1..][i] == s[i + 1] && s[1..][j] == s[j + 1];
        }
      }
      DistinctCount(s[1..], x);
      assert multiset(s) == multiset{s[0]} + multiset(s[1..]);
      if x == s[0] {
        assert x !in s[1..] by {
          forall k | 0 <= k < |s[1..]| ensures s[1..][k] != x { assert s[1..][k] == s[k + 1]; }
        }
      }
    }
  }

  lemma {:induction false} FilterIsSubsequence<T>(s: seq<T>, p: T -> bool)
    ensures IsSubsequence(Filter(s, p), s)
  {
    if s != [] {
      FilterIsSubsequence(s[1..], p);
      if p(s[0]) {
        assert Filter(s, p)[1..] == Filter(s[1..], p);
      }
    }
  }

  /** Filtering keeps exactly the occurrences of the elements satisfying `p`. */
  lemma {:induction false} FilterMultiset<T>(s: seq<T>, p: T -> bool, x: T)
    ensures multiset(Filter(s, p))[x] == if p(x) then multiset(s)[x] else 0
  {
    if s != [] {
      FilterMultiset(s[1..], p, x);
      assert s == [s[0]] + s[1..];
      assert multiset(s) == multiset{s[0]} + multiset(s[1..]);
    }
  }

  lemma {:induction false} FilterMembership<T>(s: seq<T>, p: T -> bool, x: T)
    ensures x in Filter(s, p) <==> x in s && p(x)
  {
    FilterMultiset(s, p, x);
    assert x in Filter(s, p) <==> multiset(Filter(s, p))[x] > 0;
    assert x in s <==> multiset(s)[x] > 0;
  }

  /** Filtering adds no repeats. */
  lemma {:induction false} FilterDistinct<T>(s: seq<T>, p: T -> bool)
    requires Distinct(s)
    ensures Distinct(Filter(s, p))
  {
    var r := Filter(s, p);
    forall i, j | 0 <= i < j < |r| ensures r[i] != r[j] {
      FilterMultiset(s, p, r[j]);
      DistinctCount(s, r[j]);
      assert r == r[..j] + [r[j]] + r[j + 1..];
      assert multiset(r) == multiset(r[..j]) + multiset{r[j]} + multiset(r[j + 1..]);
      assert r[j] !in r[..j];
      assert r[..j][i] == r[i];
    }
  }

  /** The position of the first occurrence of `x` in `s`. */
  function FirstIndex<T(==)>(s: seq<T>, x: T): (k: nat)
    requires x in s
    ensures k < |s| && s[k] == x
    ensures forall j :: 0 <= j < k ==> s[j] != x
  {
    if s[0] == x then 0 else 1 + FirstIndex(s[1..], x)
  }

  /** `tokens` lists elements of `s` in the order of their first occurrence in `s`. */
  predicate InFirstOccurrenceOrder<T(==)>(tokens: seq<T>, s: seq<T>)
  {
    && (forall i :: 0 <= i < |tokens| ==> tokens[i] in s)
    && forall i, j :: 0 <= i < j < |tokens| ==> FirstIndex(s, tokens[i]) < FirstIndex(s, tokens[j])
  }

  /** Growing a sequence at the end does not move a first occurrence. */
  lemma FirstIndexSnoc<T>(s: seq<T>, y: T, x: T)
    requires x in s
    ensures FirstIndex(s + [y], x) == FirstIndex(s, x)
  {
    var a, b := FirstIndex(s + [y], x), FirstIndex(s, x);
    assert (s + [y])[b] == x;
    assert a <= b;
    assert s[a] == (s + [y])[a];
  }

  /** Filtering keeps the order of first occurrences. */
  lemma {:induction false} FilterFirstIndex<T>(s: seq<T>, p: T -> bool, x: T, y: T)
    requires x in Filter(s, p) && y in Filter(s, p)
    requires FirstIndex(Filter(s, p), x) < FirstIndex(Filter(s, p), y)
    ensures x in s && y in s && FirstIndex(s, x) < FirstIndex(s, y)
  {
    FilterMembership(s, p, x);
    FilterMembership(s, p, y);
    var f, t := Filter(s, p), Filter(s[1..], p);
    FilterMembership(s[1..], p, x);
    FilterMembership(s[1..], p, y);
    if s[0] == x {
    } else if s[0] == y {
    } else if p(s[0]) {
      assert f == [s[0]] + t;
      assert FirstIndex(f, x) == 1 + FirstIndex(t, x) && FirstIndex(f, y) == 1 + FirstIndex(t, y);
      FilterFirstIndex(s[1..], p, x, y);
    } else {
      FilterFirstIndex(s[1..], p, x, y);
    }
  }

  /** The order stays when the larger sequence grows at the end. */
  lemma OrderSnoc<T>(tokens: seq<T>, s: seq<T>, y: T)
    requires InFirstOccurrenceOrder(tokens, s)
    ensures InFirstOccurrenceOrder(tokens, s + [y])
  {
    forall i | 0 <= i < |tokens| ensures FirstIndex(s + [y], tokens[i]) == FirstIndex(s, tokens[i]) {
      FirstIndexSnoc(s, y, tokens[i]);
    }
  }

  /** A new last element extends the order at its end. */
  lemma OrderAppendNew<T>(tokens: seq<T>, s: seq<T>, y: T)
    requires InFirstOccurrenceOrder(tokens, s) && y !in s
    ensures InFirstOccurrenceOrder(tokens + [y], s + [y])
  {
    OrderSnoc(tokens, s, y);
    var r, t := tokens + [y], s + [y];
    assert FirstIndex(t, y) == |s| by {
      assert forall j :: 0 <= j < |s| ==> t[j] == s[j];
    }
    forall i | 0 <= i < |tokens| ensures r[i] == tokens[i] && FirstIndex(t, r[i]) < |s| {
      assert tokens[i] in s;
      FirstIndexSnoc(s, y, tokens[i]);
    }
  }

  /** An order of first occurrences in a filter is one in the whole sequence. */
  lemma OrderOfFilter<T>(tokens: seq<T>, s: seq<T>, p: T -> bool)
    requires InFirstOccurrenceOrder(tokens, Filter(s, p))
    ensures InFirstOccurrenceOrder(tokens, s)
  {
    forall i | 0 <= i < |tokens| ensures tokens[i] in s {
      FilterMembership(s, p, tokens[i]);
    }
    forall i, j | 0 <= i < j < |tokens| ensures FirstIndex(s, tokens[i]) < FirstIndex(s, tokens[j]) {
      FilterFirstIndex(s, p, tokens[i], tokens[j]);
    }
  }

  /** When every element passes, the filter is the identity. */
  lemma {:induction false} FilterAll<T>(s: seq<T>, p: T -> bool)
    requires forall i :: 0 <= i < |s| ==> p(s[i])
    ensures Filter(s, p) == s
  {
    if s != [] {
      FilterAll(s[1..], p);
    }
  }

  /** Filtering distributes over concatenation. */
  lemma {:induction false} FilterAppend<T>(a: seq<T>, b: seq<T>, p: T -> bool)
    ensures Filter(a + b, p) == Filter(a, p) + Filter(b, p)
  {
    if a == [] {
      assert a + b == b;
    } else {
      assert (a + b)[1..] == a[1..] + b;
      FilterAppend(a[1..], b, p);
    }
  }

  /** `s.find(p)`: the first element satisfying `p`, if any. */
  function FindFirst<T>(s: seq<T>, p: T -> bool): (r: Option<T>)
    ensures r.None? <==> forall i :: 0 <= i < |s| ==> !p(s[i])
    ensures r.Some? ==> exists i :: 0 <= i < |s| && s[i] == r.value && p(s[i])
                                    && forall j :: 0 <= j < i ==> !p(s[j])
  {
    if s == [] then None
    else if p(s[0]) then Some(s[0])
    else FindFirst(s[1..], p)
  }

  /** The first element of a filter is what `find` returns. */
  lemma {:induction false} FilterHeadIsFindFirst<T>(s: seq<T>, p: T -> bool)
    ensures Filter(s, p) == [] <==> FindFirst(s, p) == None
    ensures Filter(s, p) != [] ==> FindFirst(s, p) == Some(Filter(s, p)[0])
  {
    if s != [] && !p(s[0]) {
      FilterHeadIsFindFirst(s[1..], p);
    }
  }

  /** `s.includes(sub)`. */
  predicate Contains(s: string, sub: string)
  {
    (|sub| <= |s| && s[..|sub|] == sub) || (s != [] && Contains(s[1..], sub))
  }

  /** `String(n)` for a natural number: its decimal digits. */
  function NatToString(n: nat): (s: string)
    ensures 1 <= |s|
    ensures forall i :: 0 <= i < |s| ==> '0' <= s[i] <= '9'
    ensures n >= 10 ==> |s| >= 2
  {
    if n < 10 then [Digit(n)] else NatToString(n / 10) + [Digit(n % 10)]
  }

  function Digit(d: nat): (c: char)
    requires d < 10
    ensures '0' <= c <= '9'
  {
    "0123456789"[d]
  }

  /** `String(n)` for an integer. */
  function IntToString(n: int): (s: string)
    ensures 1 <= |s|
    ensures n >= 0 ==> forall i :: 0 <= i < |s| ==> '0' <= s[i] <= '9'
    ensures n < 0 ==> s[0] == '-'
    ensures forall i :: 0 <= i < |s| ==> s[i] == '-' || '0' <= s[i] <= '9'
  {
    if n < 0 then "-" + NatToString(-n) else NatToString(n)
  }

  /** Distinct numbers print differently. */
  lemma {:induction false} NatToStringInjective(m: nat, n: nat)
    requires NatToString(m) == NatToString(n)
    ensures m == n
  {
    if m >= 10 && n >= 10 {
      var sm, sn := NatToString(m), NatToString(n);
      assert sm[..|sm| - 1] == NatToString(m / 10);
      assert sn[..|sn| - 1] == NatToString(n / 10);
      NatToStringInjective(m / 10, n / 10);
      assert Digit(m % 10) == sm[|sm| - 1] == Digit(n % 10);
      DigitInjective(m % 10, n % 10);
    } else if m < 10 && n < 10 {
      DigitInjective(m, n);
    }
  }

  lemma DigitInjective(a: nat, b: nat)
    requires a < 10 && b < 10 && Digit(a) == Digit(b)
    ensures a == b
  {
  }

  /** `c.toUpperCase()` on one character; only the Latin letters a-z and the
      lower-case Spanish accented vowels and n-tilde have an upper-case form here. */
  function ToUpper(c: char): (u: char)
    ensures 'a' <= c <= 'z' ==> u as int == c as int - 32
    ensures !('a' <= c <= 'z') && c !in "áéíóúñ" ==> u == c
    ensures c == 'á' ==> u == 'Á'
    ensures c == 'é' ==> u == 'É'
    ensures c == 'í' ==> u == 'Í'
    ensures c == 'ó' ==> u == 'Ó'
    ensures c == 'ú' ==> u == 'Ú'
    ensures c == 'ñ' ==> u == 'Ñ'
  {
    if 'a' <= c <= 'z' then (c as int - 32) as char
    else if c == 'á' then 'Á'
    else if c == 'é' then 'É'
    else if c == 'í' then 'Í'
    else if c == 'ó' then 'Ó'
    else if c == 'ú' then 'Ú'
    else if c == 'ñ' then 'Ñ'
    else c
  }

  /** `key.charAt(0).toUpperCase() + key.slice(1)`. */
  function Capitalize(key: string): (h: string)
    ensures |h| == |key|
    ensures key != [] ==> h[0] == ToUpper(key[0]) && h[1..] == key[1..]
    ensures key != [] && 'A' <= key[0] <= 'Z' ==> h == key
  {
    if key == [] then [] else [ToUpper(key[0])] + key[1..]
  }

  /** Capitalising a capitalised key changes nothing. */
  lemma CapitalizeIdempotent(key: string)
    ensures Capitalize(Capitalize(key)) == Capitalize(key)
  {
    if key != [] {
      var c := key[0];
      assert ToUpper(ToUpper(c)) == ToUpper(c) by {
        if 'a' <= c <= 'z' {
          assert 'A' <= ToUpper(c) <= 'Z';
        }
      }
    }
  }
}

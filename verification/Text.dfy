/** Strings as the operator compares them, and the small list library the rest of the model is
    built on: ordering, sorting, filtering and duplicate-freedom of lists of names. */
module Text {

  datatype Option<+T> = None | Some(value: T)

  /** Go compares strings byte by byte; on well-formed UTF-8 that is the order of the code points. */
  predicate Less(a: string, b: string)
    decreases a
  {
    b != [] && (a == [] || a[0] < b[0] || (a[0] == b[0] && Less(a[1..], b[1..])))
  }

  lemma {:induction false} LessIrreflexive(a: string)
    ensures !Less(a, a)
    decreases a
  {
    if a != [] { LessIrreflexive(a[1..]); }
  }

  lemma {:induction false} LessTransitive(a: string, b: string, c: string)
    requires Less(a, b) && Less(b, c)
    ensures Less(a, c)
    decreases a
  {
    if a != [] && a[0] == b[0] == c[0] { LessTransitive(a[1..], b[1..], c[1..]); }
  }

  lemma {:induction false} LessTotal(a: string, b: string)
    ensures Less(a, b) || a == b || Less(b, a)
    decreases a
  {
    if a != [] && b != [] && a[0] == b[0] {
      LessTotal(a[1..], b[1..]);
      if a[1..] == b[1..] { assert a == [a[0]] + a[1..] && b == [b[0]] + b[1..]; }
    }
  }

  /** The order is that of the first difference: the smaller character there, or the text that ends there. */
  lemma {:induction false} LessIff(a: string, b: string)
    ensures Less(a, b) <==> exists k :: 0 <= k <= |a| && k < |b| && a[..k] == b[..k] && (k == |a| || a[k] < b[k])
    decreases a
  {
    if b == [] || a == [] {
      if b != [] { assert a[..0] == b[..0]; }
    } else if a[0] == b[0] {
      LessIff(a[1..], b[1..]);
      if k :| 0 <= k <= |a| && k < |b| && a[..k] == b[..k] && (k == |a| || a[k] < b[k]) {
        assert k > 0 && a[1..][..k - 1] == a[1..k] == b[1..k] == b[1..][..k - 1];
      }
      if k :| 0 <= k <= |a[1..]| && k < |b[1..]| && a[1..][..k] == b[1..][..k] && (k == |a[1..]| || a[1..][k] < b[1..][k]) {
        assert a[..k + 1] == [a[0]] + a[1..][..k] == [b[0]] + b[1..][..k] == b[..k + 1];
      }
    } else {
      assert a[..0] == b[..0];
      forall k | 0 < k <= |a| && k < |b| ensures a[..k] != b[..k] { assert a[..k][0] == a[0] && b[..k][0] == b[0]; }
    }
  }

  /** unicode.IsSpace. */
  predicate IsSpace(c: char) {
    c == ' ' || '\t' <= c <= '\r' || c == '\U{0085}' || c == '\U{00A0}' || c == '\U{1680}' ||
    '\U{2000}' <= c <= '\U{200A}' || c == '\U{2028}' || c == '\U{2029}' || c == '\U{202F}' ||
    c == '\U{205F}' || c == '\U{3000}'
  }

  /** strings.TrimSpace. */
  function Trim(s: string): string
    decreases |s|
  {
    if s == "" then s
    else if IsSpace(s[0]) then Trim(s[1..])
    else if IsSpace(s[|s| - 1]) then Trim(s[..|s| - 1])
    else s
  }

  /** Only blanks are cut off, at both ends, and as many as there are. */
  lemma {:induction false} TrimSpec(s: string) returns (left: string, right: string)
    ensures s == left + Trim(s) + right
    ensures (forall c :: c in left ==> IsSpace(c)) && (forall c :: c in right ==> IsSpace(c))
    ensures Trim(s) != "" ==> !IsSpace(Trim(s)[0]) && !IsSpace(Trim(s)[|Trim(s)| - 1])
    decreases |s|
  {
    left, right := "", "";
    if s != "" {
      if IsSpace(s[0]) {
        left, right := TrimSpec(s[1..]);
        left := [s[0]] + left;
      } else if IsSpace(s[|s| - 1]) {
        left, right := TrimSpec(s[..|s| - 1]);
        right := right + [s[|s| - 1]];
      }
    }
  }

  lemma {:induction false} TrimIdempotent(s: string)
    ensures Trim(Trim(s)) == Trim(s)
    decreases |s|
  {
    if s != "" {
      if IsSpace(s[0]) { TrimIdempotent(s[1..]); }
      else if IsSpace(s[|s| - 1]) { TrimIdempotent(s[..|s| - 1]); }
    }
  }

  // ---------------------------------------------------------------- lists

  predicate NoDup<T(==)>(s: seq<T>) {
    forall i, j :: 0 <= i < j < |s| ==> s[i] != s[j]
  }

  ghost function Elements<T>(s: seq<T>): set<T> {
    set x | x in s
  }

  function Map<A, B>(f: A -> B, s: seq<A>): (r: seq<B>)
    ensures |r| == |s|
    ensures forall i :: 0 <= i < |s| ==> r[i] == f(s[i])
  {
    seq(|s|, i requires 0 <= i < |s| => f(s[i]))
  }

  lemma TakeNext<T>(s: seq<T>, i: nat)
    requires i < |s|
    ensures s[..i + 1] == s[..i] + [s[i]]
  {
  }

  lemma EmptyIff<T>(s: seq<T>)
    ensures s == [] <==> forall x :: x !in s
  {
    if s != [] { assert s[0] in s; }
  }

  /** The elements of `s` that lie in `allowed`, in the order of `s`. */
  function Keep(s: seq<string>, allowed: set<string>): (r: seq<string>)
    ensures forall x :: x in r <==> x in s && x in allowed
    ensures |r| <= |s|
  {
    if s == [] then []
    else
      var rest := Keep(s[..|s| - 1], allowed);
      if s[|s| - 1] in allowed then rest + [s[|s| - 1]] else rest
  }

  lemma {:induction false} KeepNoDup(s: seq<string>, allowed: set<string>)
    requires NoDup(s)
    ensures NoDup(Keep(s, allowed))
  {
    if s != [] { KeepNoDup(s[..|s| - 1], allowed); }
  }

  lemma {:induction false} KeepAll(s: seq<string>, allowed: set<string>)
    requires forall x :: x in s ==> x in allowed
    ensures Keep(s, allowed) == s
  {
    if s != [] { KeepAll(s[..|s| - 1], allowed); }
  }

  lemma LastKeyFresh<T>(key: T -> string, s: seq<T>)
    requires s != [] && NoDup(Map(key, s))
    ensures NoDup(Map(key, s[..|s| - 1]))
    ensures forall x :: x in s[..|s| - 1] ==> key(x) != key(s[|s| - 1])
  {
    assert Map(key, s)[..|s| - 1] == Map(key, s[..|s| - 1]);
    forall x | x in s[..|s| - 1] ensures key(x) != key(s[|s| - 1]) {
      var i :| 0 <= i < |s| - 1 && s[i] == x;
      assert Map(key, s)[i] != Map(key, s)[|s| - 1];
    }
  }

  lemma {:induction false} NoDupMultiset<T>(s: seq<T>)
    ensures NoDup(s) <==> forall x :: multiset(s)[x] <= 1
  {
    if s != [] {
      var init, last := s[..|s| - 1], s[|s| - 1];
      assert s == init + [last];
      NoDupMultiset(init);
      if NoDup(s) {
        assert last !in init;
      } else if NoDup(init) {
        assert last in init;
        assert multiset(s)[last] >= 2;
      } else {
        var x :| multiset(init)[x] > 1;
        assert multiset(s)[x] > 1;
      }
    }
  }

  lemma {:induction false} NoDupCardinality<T>(s: seq<T>)
    requires NoDup(s)
    ensures |Elements(s)| == |s|
  {
    if s != [] {
      var init, last := s[..|s| - 1], s[|s| - 1];
      NoDupCardinality(init);
      assert s == init + [last] && last !in init;
      assert Elements(s) == Elements(init) + {last};
    }
  }

  function Without<T>(s: seq<T>, k: nat): seq<T>
    requires k < |s|
  {
    s[..k] + s[k + 1..]
  }

  lemma RemoveOne<T>(s: seq<T>, k: nat)
    requires k < |s|
    ensures multiset(s) == multiset(Without(s, k)) + multiset{s[k]}
  {
    assert s == s[..k] + [s[k]] + s[k + 1..];
  }

  lemma MapWithout<A, B>(f: A -> B, s: seq<A>, k: nat)
    requires k < |s|
    ensures Map(f, Without(s, k)) == Without(Map(f, s), k)
  {
  }

  lemma SameElement<T>(s: seq<T>, t: seq<T>, i: nat) returns (k: nat)
    requires i < |s| && multiset(s) == multiset(t)
    ensures k < |t| && t[k] == s[i]
    ensures multiset(Without(s, i)) == multiset(Without(t, k))
  {
    assert s[i] in multiset(t);
    k :| k < |t| && t[k] == s[i];
    RemoveOne(s, i);
    RemoveOne(t, k);
    assert multiset(Without(s, i)) == multiset(s) - multiset{s[i]};
    assert multiset(Without(t, k)) == multiset(t) - multiset{s[i]};
  }

  /** Mapping two permutations of the same list gives permutations of the same list. */
  lemma {:induction false} MapMultiset<A, B>(f: A -> B, s: seq<A>, t: seq<A>)
    requires multiset(s) == multiset(t)
    ensures multiset(Map(f, s)) == multiset(Map(f, t))
    decreases |s|
  {
    if s == [] {
      assert |t| == |multiset(t)| == 0;
    } else {
      var k := SameElement(s, t, 0);
      MapMultiset(f, Without(s, 0), Without(t, k));
      MapWithout(f, s, 0);
      MapWithout(f, t, k);
      RemoveOne(Map(f, s), 0);
      RemoveOne(Map(f, t), k);
    }
  }

  // ---------------------------------------------------------------- sorting

  ghost predicate Ascending<T>(key: T -> string, s: seq<T>) {
    forall i, j :: 0 <= i < j < |s| ==> !Less(key(s[j]), key(s[i]))
  }

  ghost predicate StrictlyAscending<T>(key: T -> string, s: seq<T>) {
    forall i, j :: 0 <= i < j < |s| ==> Less(key(s[i]), key(s[j]))
  }

  function Insert<T>(key: T -> string, x: T, s: seq<T>): seq<T> {
    if s == [] then [x]
    else if Less(key(x), key(s[|s| - 1])) then Insert(key, x, s[..|s| - 1]) + [s[|s| - 1]]
    else s + [x]
  }

  /** sort.Strings and sort.Slice by a string key (stable, where the library leaves ties open). */
  function Sort<T>(key: T -> string, s: seq<T>): seq<T> {
    if s == [] then [] else Insert(key, s[|s| - 1], Sort(key, s[..|s| - 1]))
  }

  lemma {:induction false} InsertPermutes<T>(key: T -> string, x: T, s: seq<T>)
    ensures multiset(Insert(key, x, s)) == multiset(s) + multiset{x}
  {
    if s != [] {
      InsertPermutes(key, x, s[..|s| - 1]);
      assert s == s[..|s| - 1] + [s[|s| - 1]];
    }
  }

  lemma {:induction false} SortPermutes<T>(key: T -> string, s: seq<T>)
    ensures multiset(Sort(key, s)) == multiset(s)
    ensures |Sort(key, s)| == |s|
  {
    if s != [] {
      SortPermutes(key, s[..|s| - 1]);
      InsertPermutes(key, s[|s| - 1], Sort(key, s[..|s| - 1]));
      assert s == s[..|s| - 1] + [s[|s| - 1]];
    }
    assert |multiset(s)| == |s| && |multiset(Sort(key, s))| == |Sort(key, s)|;
  }

  lemma {:induction false} NotLessTransitive(a: string, b: string, c: string)
    requires !Less(b, a) && !Less(c, b)
    ensures !Less(c, a)
  {
    if Less(c, a) {
      LessTotal(a, b);
      if a == b { } else { LessTransitive(c, a, b); }
    }
  }

  lemma {:induction false} InsertAscending<T>(key: T -> string, x: T, s: seq<T>)
    requires Ascending(key, s)
    ensures Ascending(key, Insert(key, x, s))
  {
    if s != [] {
      var init, last := s[..|s| - 1], s[|s| - 1];
      if Less(key(x), key(last)) {
        InsertAscending(key, x, init);
        InsertPermutes(key, x, init);
        var r := Insert(key, x, init);
        forall i | 0 <= i < |r| ensures !Less(key(last), key(r[i])) {
          assert r[i] in multiset(r);
          if r[i] == x {
            if Less(key(last), key(x)) { LessTransitive(key(x), key(last), key(x)); LessIrreflexive(key(x)); }
          } else {
            assert r[i] in init;
          }
        }
      } else {
        forall i | 0 <= i < |s| ensures !Less(key(x), key(s[i])) {
          if i < |s| - 1 { NotLessTransitive(key(s[i]), key(last), key(x)); }
        }
      }
    }
  }

  lemma {:induction false} SortAscending<T>(key: T -> string, s: seq<T>)
    ensures Ascending(key, Sort(key, s))
  {
    if s != [] {
      SortAscending(key, s[..|s| - 1]);
      InsertAscending(key, s[|s| - 1], Sort(key, s[..|s| - 1]));
    }
  }

  lemma SortElements<T>(key: T -> string, s: seq<T>)
    ensures forall x :: x in Sort(key, s) <==> x in s
  {
    SortPermutes(key, s);
    assert forall x :: x in Sort(key, s) <==> x in multiset(Sort(key, s));
  }

  lemma SortNoDup<T>(key: T -> string, s: seq<T>)
    requires NoDup(s)
    ensures NoDup(Sort(key, s))
  {
    SortPermutes(key, s);
    NoDupMultiset(s);
    NoDupMultiset(Sort(key, s));
  }

  /** Distinct keys make the sorted list strictly ascending. */
  lemma SortStrict<T>(key: T -> string, s: seq<T>)
    requires NoDup(Map(key, s))
    ensures StrictlyAscending(key, Sort(key, s))
  {
    var r := Sort(key, s);
    SortAscending(key, s);
    SortPermutes(key, s);
    MapMultiset(key, s, r);
    NoDupMultiset(Map(key, s));
    NoDupMultiset(Map(key, r));
    forall i, j | 0 <= i < j < |r| ensures Less(key(r[i]), key(r[j])) {
      LessTotal(key(r[i]), key(r[j]));
      assert Map(key, r)[i] != Map(key, r)[j];
    }
  }

  lemma SameFirst<T>(key: T -> string, s: seq<T>, t: seq<T>)
    requires StrictlyAscending(key, s) && StrictlyAscending(key, t)
    requires multiset(s) == multiset(t) && s != []
    ensures t != [] && s[0] == t[0]
  {
    var k := SameElement(s, t, 0);
    var j := SameElement(t, s, 0);
    if s[0] != t[0] {
      assert Less(key(t[0]), key(t[k])) && Less(key(s[0]), key(s[j]));
      LessTransitive(key(s[0]), key(t[0]), key(s[0]));
      LessIrreflexive(key(s[0]));
    }
  }

  /** A strictly ascending arrangement of a multiset is unique. */
  lemma {:induction false} StrictUnique<T>(key: T -> string, s: seq<T>, t: seq<T>)
    requires StrictlyAscending(key, s) && StrictlyAscending(key, t)
    requires multiset(s) == multiset(t)
    ensures s == t
    decreases |s|
  {
    if s == [] {
      assert |t| == |multiset(t)| == 0;
    } else {
      SameFirst(key, s, t);
      SameRest(s, t);
      StrictUnique(key, s[1..], t[1..]);
      assert s == [s[0]] + s[1..] && t == [t[0]] + t[1..];
    }
  }

  lemma SameRest<T>(s: seq<T>, t: seq<T>)
    requires multiset(s) == multiset(t) && s != [] && t != [] && s[0] == t[0]
    ensures multiset(s[1..]) == multiset(t[1..])
  {
    assert s == [s[0]] + s[1..] && t == [t[0]] + t[1..];
    assert multiset(s[1..]) == multiset(s) - multiset{s[0]};
    assert multiset(t[1..]) == multiset(t) - multiset{s[0]};
  }

  lemma SortOfStrict<T>(key: T -> string, s: seq<T>)
    requires StrictlyAscending(key, s)
    ensures Sort(key, s) == s
  {
    forall i, j | 0 <= i < j < |s| ensures Map(key, s)[i] != Map(key, s)[j] {
      LessIrreflexive(key(s[i]));
    }
    SortStrict(key, s);
    SortPermutes(key, s);
    StrictUnique(key, Sort(key, s), s);
  }

  function Self(s: string): string { s }

  function SortNames(s: seq<string>): seq<string> {
    Sort(Self, s)
  }
}

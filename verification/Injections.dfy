/** Injections into text, from which libraries can be made that meet the laws the theorems name. */
module Injections {
  import opened Common

  /** Binary trees over numbers, into which everything else is put first. */
  datatype Term = Leaf(n: nat) | Node(left: Term, right: Term)

  function Unary(n: nat): string {
    if n == 0 then "0" else "1" + Unary(n - 1)
  }

  function Flat(t: Term): string {
    match t
    case Leaf(n) => Unary(n)
    case Node(left, right) => "n" + (Flat(left) + Flat(right))
  }

  lemma {:induction false} UnarySeparates(m: nat, n: nat, s: string, t: string)
    requires Unary(m) + s == Unary(n) + t
    ensures m == n && s == t
  {
    var all := Unary(m) + s;
    assert all[0] == Unary(m)[0] && all[0] == Unary(n)[0];
    if m > 0 && n > 0 {
      assert all[1..] == Unary(m - 1) + s && all[1..] == Unary(n - 1) + t;
      UnarySeparates(m - 1, n - 1, s, t);
    } else {
      assert all[1..] == s && all[1..] == t;
    }
  }

  lemma FlatHead(t: Term)
    ensures Flat(t) != [] && (Flat(t)[0] == 'n' <==> t.Node?)
  {}

  /** No text is the beginning of another, so that what follows can be told apart as well. */
  lemma {:induction false} FlatSeparates(a: Term, b: Term, s: string, t: string)
    requires Flat(a) + s == Flat(b) + t
    ensures a == b && s == t
    decreases a
  {
    var all := Flat(a) + s;
    FlatHead(a);
    FlatHead(b);
    assert all[0] == Flat(a)[0] && all[0] == Flat(b)[0];
    if a.Leaf? {
      UnarySeparates(a.n, b.n, s, t);
    } else {
      assert all[1..] == Flat(a.left) + (Flat(a.right) + s);
      assert all[1..] == Flat(b.left) + (Flat(b.right) + t);
      FlatSeparates(a.left, b.left, Flat(a.right) + s, Flat(b.right) + t);
      FlatSeparates(a.right, b.right, s, t);
    }
  }

  lemma FlatInjective(a: Term, b: Term)
    requires Flat(a) == Flat(b)
    ensures a == b
  {
    assert Flat(a) + [] == Flat(b) + [];
    FlatSeparates(a, b, [], []);
  }

  // ---- Lists, texts, maps ----

  function ListTerm(ts: seq<Term>): Term {
    if ts == [] then Leaf(0) else Node(ts[0], ListTerm(ts[1..]))
  }

  lemma {:induction false} ListInjective(a: seq<Term>, b: seq<Term>)
    requires ListTerm(a) == ListTerm(b)
    ensures a == b
  {
    if a != [] {
      ListInjective(a[1..], b[1..]);
      assert a == [a[0]] + a[1..] && b == [b[0]] + b[1..];
    }
  }

  function TextTerm(s: string): Term {
    ListTerm(seq(|s|, i requires 0 <= i < |s| => Leaf(s[i] as int)))
  }

  lemma TextInjective(a: string, b: string)
    requires TextTerm(a) == TextTerm(b)
    ensures a == b
  {
    var x := seq(|a|, i requires 0 <= i < |a| => Leaf(a[i] as int));
    var y := seq(|b|, i requires 0 <= i < |b| => Leaf(b[i] as int));
    ListInjective(x, y);
    forall i | 0 <= i < |a|
      ensures a[i] == b[i]
    {
      assert x[i] == y[i];
    }
  }

  function IntTerm(n: int): Term {
    if n < 0 then Node(Leaf(1), Leaf(-n)) else Node(Leaf(0), Leaf(n))
  }

  function OptionTerm(s: Option<string>): Term {
    match s
    case None => Leaf(0)
    case Some(text) => Node(Leaf(1), TextTerm(text))
  }

  lemma OptionInjective(a: Option<string>, b: Option<string>)
    requires OptionTerm(a) == OptionTerm(b)
    ensures a == b
  {
    if a.Some? && b.Some? {
      TextInjective(a.value, b.value);
    }
  }

  ghost predicate Injective<K(!new)>(key: K -> Term) {
    forall a, b :: key(a) == key(b) ==> a == b
  }

  ghost function AnyKey<K, V>(m: map<K, V>): K
    requires m != map[]
    ensures AnyKey(m) in m
  {
    assert m.Keys != {};
    var k :| k in m;
    k
  }

  ghost function MapTerm<K(!new)>(key: K -> Term, m: map<K, Term>): Term
    decreases |m|
  {
    if m == map[] then Leaf(0)
    else
      var k := AnyKey(m);
      Node(Node(key(k), m[k]), MapTerm(key, m - {k}))
  }

  lemma {:induction false} MapInjective<K(!new)>(key: K -> Term, a: map<K, Term>, b: map<K, Term>)
    requires Injective(key) && MapTerm(key, a) == MapTerm(key, b)
    ensures a == b
    decreases |a|
  {
    if a != map[] {
      var k := AnyKey(a);
      assert key(k) == key(AnyKey(b));
      MapInjective(key, a - {k}, b - {k});
      forall x
        ensures x in a <==> x in b
        ensures x in a && x in b ==> a[x] == b[x]
      {
        if x != k {
          assert x in a <==> x in a - {k};
          assert x in b <==> x in b - {k};
          if x in a && x in b {
            assert a[x] == (a - {k})[x] && b[x] == (b - {k})[x];
          }
        }
      }
    }
  }

  // ---- JSON ----

  function FloatTerm(f: Float): Term {
    match f
    case Finite(units) => Node(Leaf(0), IntTerm(units))
    case NegativeZero => Leaf(1)
    case NotFinite => Leaf(2)
  }

  ghost function JsonTerm(j: Json): Term {
    match j
    case JNull => Leaf(0)
    case JBool(truth) => Node(Leaf(1), Leaf(if truth then 1 else 0))
    case JNum(number) => Node(Leaf(2), IntTerm(number))
    case JFloat(float) => Node(Leaf(3), FloatTerm(float))
    case JStr(text) => Node(Leaf(4), TextTerm(text))
    case JArr(items) => Node(Leaf(5), ListTerm(seq(|items|, i requires 0 <= i < |items| => JsonTerm(items[i]))))
    case JObj(fields) => Node(Leaf(6), MapTerm(TextTerm, map k | k in fields :: JsonTerm(fields[k])))
  }

  lemma TextKeys()
    ensures Injective(TextTerm)
  {
    forall a, b | TextTerm(a) == TextTerm(b)
      ensures a == b
    {
      TextInjective(a, b);
    }
  }

  lemma {:induction false} JsonInjective(a: Json, b: Json)
    requires JsonTerm(a) == JsonTerm(b)
    ensures a == b
    decreases a
  {
    match a
    case JStr(text) => TextInjective(text, b.text);
    case JArr(items) =>
      ItemsMatch(items, b.items);
      forall i | 0 <= i < |items|
        ensures items[i] == b.items[i]
      {
        JsonInjective(items[i], b.items[i]);
      }
    case JObj(fields) =>
      FieldsMatch(fields, b.fields);
      forall k | k in fields
        ensures fields[k] == b.fields[k]
      {
        JsonInjective(fields[k], b.fields[k]);
      }
      assert fields == b.fields;
    case _ =>
  }

  lemma ItemsMatch(a: seq<Json>, b: seq<Json>)
    requires JsonTerm(JArr(a)) == JsonTerm(JArr(b))
    ensures |a| == |b| && forall i :: 0 <= i < |a| ==> JsonTerm(a[i]) == JsonTerm(b[i])
  {
    var x := seq(|a|, i requires 0 <= i < |a| => JsonTerm(a[i]));
    var y := seq(|b|, i requires 0 <= i < |b| => JsonTerm(b[i]));
    ListInjective(x, y);
    forall i | 0 <= i < |a|
      ensures JsonTerm(a[i]) == JsonTerm(b[i])
    {
      assert x[i] == JsonTerm(a[i]) && y[i] == JsonTerm(b[i]);
    }
  }

  lemma FieldsMatch(a: map<string, Json>, b: map<string, Json>)
    requires JsonTerm(JObj(a)) == JsonTerm(JObj(b))
    ensures a.Keys == b.Keys && forall k :: k in a ==> JsonTerm(a[k]) == JsonTerm(b[k])
  {
    var x, y := map k | k in a :: JsonTerm(a[k]), map k | k in b :: JsonTerm(b[k]);
    TextKeys();
    MapInjective(TextTerm, x, y);
    assert a.Keys == x.Keys && b.Keys == y.Keys;
    forall k | k in a
      ensures JsonTerm(a[k]) == JsonTerm(b[k])
    {
      assert x[k] == y[k];
    }
  }
}

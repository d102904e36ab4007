/** What a PostgreSQL jsonb column does to the numbers of a JSON value (the storage side of activity/storage.py). */
module JsonbValues {
  import opened Common

  function PowerOfTwo(n: nat): (r: nat)
    ensures r > 0
  {
    if n == 0 then 1 else 2 * PowerOfTwo(n - 1)
  }

  /** 1.0 in the units of `Finite`. */
  const ONE := PowerOfTwo(1074)

  /** From here on Python writes a float with an exponent and no fraction, and jsonb writes it out in full. */
  const WIDE := 10000000000000000 * ONE

  /** A float without a fraction. */
  predicate Whole(units: int) {
    units % ONE == 0
  }

  /** Every float that large is whole. */
  predicate Wide(units: int) {
    Whole(units) && (units >= WIDE || units <= -WIDE)
  }

  /** NUL is the one character that PostgreSQL text cannot hold. */
  predicate TextStorable(s: string) {
    '\0' !in s
  }

  /** What a jsonb column takes: finite numbers, and no NUL in any text or key. */
  predicate JsonStorable(j: Json) {
    match j
    case JFloat(f) => f != NotFinite
    case JStr(text) => TextStorable(text)
    case JArr(items) => forall item :: item in items ==> JsonStorable(item)
    case JObj(fields) => forall k :: k in fields ==> TextStorable(k) && JsonStorable(fields[k])
    case _ => true
  }

  /** The value read back: a wide float has become an integer, and -0.0 has lost its sign. */
  function Renumbered(j: Json): Json {
    match j
    case JFloat(Finite(units)) => if Wide(units) then JNum(units / ONE) else j
    case JFloat(NegativeZero) => JFloat(Finite(0))
    case JArr(items) => JArr(seq(|items|, i requires 0 <= i < |items| => Renumbered(items[i])))
    case JObj(fields) => JObj(map k | k in fields :: Renumbered(fields[k]))
    case _ => j
  }

  /** No float that jsonb writes differently from Python. */
  predicate NumbersSurvive(j: Json) {
    match j
    case JFloat(Finite(units)) => !Wide(units)
    case JFloat(NegativeZero) => false
    case JArr(items) => forall item :: item in items ==> NumbersSurvive(item)
    case JObj(fields) => forall k :: k in fields ==> NumbersSurvive(fields[k])
    case _ => true
  }

  /** How jsonb compares: numbers by value, so that 1 and 1.0 are the same. */
  function Compared(j: Json): Json {
    match j
    case JFloat(Finite(units)) => if Whole(units) then JNum(units / ONE) else j
    case JFloat(NegativeZero) => JNum(0)
    case JArr(items) => JArr(seq(|items|, i requires 0 <= i < |items| => Compared(items[i])))
    case JObj(fields) => JObj(map k | k in fields :: Compared(fields[k]))
    case _ => j
  }

  /** A value comes back as it was exactly when every number in it, however deep, survives. */
  lemma {:induction false} RenumberedIff(j: Json)
    ensures Renumbered(j) == j <==> NumbersSurvive(j)
    decreases j
  {
    match j
    case JArr(items) =>
      forall i | 0 <= i < |items|
        ensures Renumbered(items[i]) == items[i] <==> NumbersSurvive(items[i])
      {
        RenumberedIff(items[i]);
      }
      ArrayKept(items);
    case JObj(fields) =>
      forall k | k in fields
        ensures Renumbered(fields[k]) == fields[k] <==> NumbersSurvive(fields[k])
      {
        RenumberedIff(fields[k]);
      }
      ObjectKept(fields);
    case _ =>
  }

  lemma ArrayKept(items: seq<Json>)
    ensures Renumbered(JArr(items)) == JArr(items)
      <==> forall i :: 0 <= i < |items| ==> Renumbered(items[i]) == items[i]
  {
    var after := Renumbered(JArr(items)).items;
    assert forall i :: 0 <= i < |items| ==> after[i] == Renumbered(items[i]);
    if forall i :: 0 <= i < |items| ==> Renumbered(items[i]) == items[i] {
      assert after == items;
    }
  }

  lemma ObjectKept(fields: map<string, Json>)
    ensures Renumbered(JObj(fields)) == JObj(fields) <==> forall k :: k in fields ==> Renumbered(fields[k]) == fields[k]
  {
    var after := Renumbered(JObj(fields)).fields;
    assert forall k :: k in fields ==> after[k] == Renumbered(fields[k]);
    if forall k :: k in fields ==> Renumbered(fields[k]) == fields[k] {
      assert after == fields;
    }
  }

  // ---- Equality as jsonb has it ----

  predicate IsNumber(j: Json) {
    j.JNum? || (j.JFloat? && j.float != NotFinite)
  }

  /** The numeric value, in the units of `Finite`. */
  function Magnitude(j: Json): int
    requires IsNumber(j)
  {
    match j
    case JNum(number) => number * ONE
    case JFloat(Finite(units)) => units
    case JFloat(NegativeZero) => 0
  }

  /** Equal up to the form in which numbers are written, at every depth. */
  predicate SameValue(a: Json, b: Json)
    decreases a
  {
    if IsNumber(a) && IsNumber(b) then Magnitude(a) == Magnitude(b)
    else
      match (a, b)
      case (JArr(xs), JArr(ys)) => |xs| == |ys| && forall i :: 0 <= i < |xs| ==> SameValue(xs[i], ys[i])
      case (JObj(m), JObj(n)) => m.Keys == n.Keys && forall k :: k in m ==> k in n && SameValue(m[k], n[k])
      case _ => a == b
  }

  lemma WholeUnits(number: int, units: int)
    ensures number * ONE == units <==> Whole(units) && units / ONE == number
  {
    if number * ONE == units {
      DivisionUndone(number, ONE);
    } else if Whole(units) {
      assert units == units / ONE * ONE + units % ONE;
    }
  }

  lemma DivisionUndone(n: int, d: int)
    requires d > 0
    ensures (n * d) / d == n && (n * d) % d == 0
  {
    var q, r := (n * d) / d, (n * d) % d;
    assert (n - q) * d == r;
    if n - q >= 1 {
      MultipleAtLeast(n - q, d);
    } else if n - q <= -1 {
      MultipleAtLeast(q - n, d);
    }
  }

  lemma MultipleAtLeast(n: int, d: int)
    requires n >= 1 && d > 0
    ensures n * d >= d
  {
    assert n * d == (n - 1) * d + d;
    NonNegativeProduct(n - 1, d);
  }

  lemma NonNegativeProduct(a: int, b: int)
    requires a >= 0 && b >= 0
    ensures a * b >= 0
  {}

  lemma NumbersCompared(a: Json, b: Json)
    requires IsNumber(a) && IsNumber(b)
    ensures Compared(a) == Compared(b) <==> Magnitude(a) == Magnitude(b)
  {
    var x, y := Magnitude(a), Magnitude(b);
    MagnitudeCompared(a);
    MagnitudeCompared(b);
    if Whole(x) && Whole(y) {
      assert x == x / ONE * ONE && y == y / ONE * ONE;
    }
  }

  lemma MagnitudeCompared(j: Json)
    requires IsNumber(j)
    ensures Compared(j) == if Whole(Magnitude(j)) then JNum(Magnitude(j) / ONE) else JFloat(Finite(Magnitude(j)))
  {
    match j
    case JNum(number) => WholeUnits(number, number * ONE);
    case JFloat(_) => WholeUnits(0, 0);
  }

  /** The server's comparison finds exactly the values that are equal up to number form. */
  lemma {:induction false} ComparedIff(a: Json, b: Json)
    ensures Compared(a) == Compared(b) <==> SameValue(a, b)
    decreases a
  {
    if IsNumber(a) && IsNumber(b) {
      NumbersCompared(a, b);
    } else {
      match (a, b)
      case (JArr(xs), JArr(ys)) =>
        forall i | 0 <= i < |xs| && i < |ys|
          ensures Compared(xs[i]) == Compared(ys[i]) <==> SameValue(xs[i], ys[i])
        {
          ComparedIff(xs[i], ys[i]);
        }
        ItemsCompared(xs, ys);
      case (JObj(m), JObj(n)) =>
        forall k | k in m && k in n
          ensures Compared(m[k]) == Compared(n[k]) <==> SameValue(m[k], n[k])
        {
          ComparedIff(m[k], n[k]);
        }
        FieldsCompared(m, n);
      case _ =>
    }
  }

  lemma ItemsCompared(xs: seq<Json>, ys: seq<Json>)
    ensures Compared(JArr(xs)) == Compared(JArr(ys))
      <==> |xs| == |ys| && forall i :: 0 <= i < |xs| ==> Compared(xs[i]) == Compared(ys[i])
  {
    var a, b := Compared(JArr(xs)).items, Compared(JArr(ys)).items;
    assert forall i :: 0 <= i < |xs| ==> a[i] == Compared(xs[i]);
    assert forall i :: 0 <= i < |ys| ==> b[i] == Compared(ys[i]);
  }

  lemma FieldsCompared(m: map<string, Json>, n: map<string, Json>)
    ensures Compared(JObj(m)) == Compared(JObj(n))
      <==> m.Keys == n.Keys && forall k :: k in m ==> k in n && Compared(m[k]) == Compared(n[k])
  {
    var a, b := Compared(JObj(m)).fields, Compared(JObj(n)).fields;
    assert a.Keys == m.Keys && b.Keys == n.Keys;
    assert forall k :: k in m ==> a[k] == Compared(m[k]);
    assert forall k :: k in n ==> b[k] == Compared(n[k]);
  }

  /** A trip through jsonb keeps every number's value. */
  lemma {:induction false} RenumberedSame(j: Json)
    ensures Compared(Renumbered(j)) == Compared(j)
    decreases j
  {
    match j
    case JFloat(Finite(units)) =>
      if Wide(units) {
        WholeUnits(units / ONE, units);
      }
    case JFloat(NegativeZero) => WholeUnits(0, 0);
    case JArr(items) =>
      forall i | 0 <= i < |items|
        ensures Compared(Renumbered(items[i])) == Compared(items[i])
      {
        RenumberedSame(items[i]);
      }
      ItemsCompared(Renumbered(j).items, items);
    case JObj(fields) =>
      forall k | k in fields
        ensures Compared(Renumbered(fields[k])) == Compared(fields[k])
      {
        RenumberedSame(fields[k]);
      }
      assert Renumbered(j).fields.Keys == fields.Keys;
      FieldsCompared(Renumbered(j).fields, fields);
    case _ =>
  }

  // ---- What is inside a value ----

  /** The part is the value itself, or is inside an item or an entry of it. */
  ghost predicate Within(part: Json, whole: Json)
    decreases whole
  {
    || part == whole
    || (whole.JArr? && exists i :: 0 <= i < |whole.items| && Within(part, whole.items[i]))
    || (whole.JObj? && exists k :: k in whole.fields && Within(part, whole.fields[k]))
  }

  /** A NaN or an infinity, or text with a NUL in it. */
  predicate Untakable(j: Json) {
    || j == JFloat(NotFinite)
    || (j.JStr? && '\0' in j.text)
    || (j.JObj? && exists k :: k in j.fields && '\0' in k)
  }

  /** The server takes a value exactly when there is nothing of the kind anywhere inside it. */
  lemma {:induction false} StorableIff(j: Json)
    ensures JsonStorable(j) <==> forall part :: Within(part, j) ==> !Untakable(part)
    decreases j
  {
    match j
    case JArr(items) =>
      forall i | 0 <= i < |items|
        ensures JsonStorable(items[i]) <==> forall part :: Within(part, items[i]) ==> !Untakable(part)
      {
        StorableIff(items[i]);
      }
      assert forall item :: item in items ==> exists i :: 0 <= i < |items| && items[i] == item;
    case JObj(fields) =>
      forall k | k in fields
        ensures JsonStorable(fields[k]) <==> forall part :: Within(part, fields[k]) ==> !Untakable(part)
      {
        StorableIff(fields[k]);
      }
      assert Within(j, j);
    case _ =>
      assert Within(j, j);
  }

  /** A number that jsonb writes differently: -0.0, or 1e16 and beyond. */
  predicate Rewritten(j: Json) {
    j == JFloat(NegativeZero) || (j.JFloat? && j.float.Finite? && Wide(j.float.units))
  }

  /** A value comes back as it was exactly when there is no such number anywhere inside it. */
  lemma {:induction false} SurvivesIff(j: Json)
    ensures NumbersSurvive(j) <==> forall part :: Within(part, j) ==> !Rewritten(part)
    decreases j
  {
    match j
    case JArr(items) =>
      forall i | 0 <= i < |items|
        ensures NumbersSurvive(items[i]) <==> forall part :: Within(part, items[i]) ==> !Rewritten(part)
      {
        SurvivesIff(items[i]);
      }
      assert forall item :: item in items ==> exists i :: 0 <= i < |items| && items[i] == item;
    case JObj(fields) =>
      forall k | k in fields
        ensures NumbersSurvive(fields[k]) <==> forall part :: Within(part, fields[k]) ==> !Rewritten(part)
      {
        SurvivesIff(fields[k]);
      }
    case _ =>
      assert Within(j, j);
  }

  /** 1e16 is the first float that jsonb writes as an integer; the one below it comes back as it was. */
  lemma FirstWide()
    ensures Renumbered(JFloat(Finite(10000000000000000 * ONE))) == JNum(10000000000000000)
    ensures Renumbered(JFloat(Finite(9999999999999998 * ONE))) == JFloat(Finite(9999999999999998 * ONE))
  {
    DivisionUndone(10000000000000000, ONE);
  }
}

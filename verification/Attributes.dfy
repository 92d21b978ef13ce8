/** Typed search attributes: the table sent when a workflow starts and the table read back on an upsert. */
module Attributes {
  import opened Protocol
  import Decimal

  const UNSET := "unset"
  const SECOND: int := 1_000_000_000
  const EXACT: int := 0x20_0000_0000_0000   // 2^53

  /** A typed value. `TNoKeywords` is a keyword list that is nil, which JSON writes differently from an empty one. */
  datatype Typed =
    | TBool(b: bool) | TFloat(r: real) | TInt(i: int) | TKeyword(s: string)
    | TKeywords(strs: seq<string>) | TNoKeywords | TText(s: string) | TTime(t: int)

  function KindOf(v: Typed): AttributeType {
    match v
    case TBool(_) => BoolType
    case TFloat(_) => FloatType
    case TInt(_) => IntType
    case TKeyword(_) => KeywordType
    case TKeywords(_) => KeywordListType
    case TNoKeywords => KeywordListType
    case TText(_) => StringType
    case TTime(_) => DatetimeType
  }

  datatype Update = ValueSet(value: Typed) | ValueUnset(kind: AttributeType)

  /** Library conversions: RFC 3339 time parsing and formatting, integer to float64. Instants are nanoseconds. */
  datatype Conversions = Conversions(parseTime: string -> Option<int>, formatTime: int -> string, toFloat: int -> real)

  /** The instants RFC 3339 can write: the years 0000 to 9999, counted from 1970. */
  predicate Writable(t: int) {
    -62_167_219_200 * SECOND <= t < 253_402_300_800 * SECOND
  }

  /** Formatting keeps the whole seconds of a writable instant, and what it makes of another cannot be parsed. An int64
      becomes a whole float64 of the same sign, no larger than 2^63, and exact up to 2^53. */
  ghost predicate Lawful(c: Conversions) {
    && (forall t :: c.parseTime(c.formatTime(t)) == if Writable(t) then Some(t - t % SECOND) else None)
    && (forall n :: -EXACT <= n <= EXACT ==> c.toFloat(n) == n as real)
    && (forall n :: -INT64 <= n < INT64 ==> WholeFloat(c.toFloat(n), n))
  }

  predicate WholeFloat(r: real, n: int) {
    && r.Floor as real == r
    && (if n < 0 then -INT64 as real <= r <= 0.0 else 0.0 <= r <= INT64 as real)
  }

  /** float64 to int64: towards zero, wrapping outside the range (where Go leaves the result open). */
  function Truncate(r: real): int {
    Signed(if r >= 0.0 then r.Floor else -((-r).Floor))
  }

  /** What one attribute of an upsert turns into. */
  datatype Converted = Skip | Fail | Put(update: Update)

  function Strings(items: seq<Any>): seq<string> {
    if items == [] then []
    else (if items[0].Str? then [items[0].s] else []) + Strings(items[1..])
  }

  /** A slice appended to from nil: without any string it stays nil. */
  function Gathered(strs: seq<string>): Typed {
    if strs == [] then TNoKeywords else TKeywords(strs)
  }

  function Convert(c: Conversions, a: Attribute): Converted {
    if a.kind.OtherType? then Skip
    else if a.operation == UNSET then Put(ValueUnset(a.kind))
    else match (a.kind, a.value)
      case (BoolType, Bool(b)) => Put(ValueSet(TBool(b)))
      case (FloatType, Float(r)) => Put(ValueSet(TFloat(r)))
      case (IntType, Float(r)) => Put(ValueSet(TInt(Truncate(r))))
      case (IntType, Int(i)) => Put(ValueSet(TInt(Signed(i))))
      case (IntType, Str(s)) =>
        var n := Decimal.ParseInt(s);
        if n.Some? then Put(ValueSet(TInt(n.value))) else Skip
      case (KeywordType, Str(s)) => Put(ValueSet(TKeyword(s)))
      case (KeywordListType, Strs(strs)) => Put(ValueSet(TKeywords(strs)))
      case (KeywordListType, NilStrs) => Put(ValueSet(TNoKeywords))
      case (KeywordListType, List(items)) => Put(ValueSet(Gathered(Strings(items))))
      case (StringType, Str(s)) => Put(ValueSet(TText(s)))
      case (DatetimeType, Str(s)) =>
        var t := c.parseTime(s);
        if t.Some? then Put(ValueSet(TTime(t.value))) else Fail
      case _ => Skip
  }

  predicate Updating(c: Conversions, a: Option<Attribute>) {
    a.Some? && Convert(c, a.value).Put?
  }

  /** The updates an attribute map stands for, with no iteration order in sight. */
  function Updates(c: Conversions, attrs: Attributes): map<string, Update> {
    map k | k in attrs && Updating(c, attrs[k]) :: Convert(c, attrs[k].value).update
  }

  /** Some set datetime is not RFC 3339. */
  predicate Unparsable(c: Conversions, attrs: Attributes) {
    exists k :: k in attrs && BadTime(c, attrs[k])
  }

  predicate BadTime(c: Conversions, a: Option<Attribute>) {
    && a.Some? && a.value.kind.DatetimeType? && a.value.operation != UNSET
    && a.value.value.Str? && c.parseTime(a.value.value.s).None?
  }

  /** Some key holds null. */
  predicate HasNull(attrs: Attributes) {
    exists k :: k in attrs && attrs[k].None?
  }

  /** How the loop over the attributes ends: at its end, with an error, or by dereferencing null. */
  datatype Ending = Finishes | Errs | Crashes

  function FaultOf(c: Conversions, a: Option<Attribute>): Ending {
    if a.None? then Crashes else if BadTime(c, a) then Errs else Finishes
  }

  /** The first fault met in some order decides. */
  function EndsIn(c: Conversions, attrs: Attributes, order: seq<string>): Ending {
    if order == [] then Finishes
    else if order[0] in attrs && FaultOf(c, attrs[order[0]]) != Finishes then FaultOf(c, attrs[order[0]])
    else EndsIn(c, attrs, order[1..])
  }

  /** The same, null first where `visit` is no iteration of the map. */
  function Ends(c: Conversions, attrs: Attributes, visit: seq<string>): Ending {
    if Iteration(visit, attrs.Keys) then EndsIn(c, attrs, visit)
    else if HasNull(attrs) then Crashes
    else if Unparsable(c, attrs) then Errs
    else Finishes
  }

  /** A map iteration visits every key once, in some order. */
  predicate Iteration<K(==)>(order: seq<K>, keys: set<K>) {
    && (forall i, j :: 0 <= i < j < |order| ==> order[i] != order[j])
    && (forall k :: k in order ==> k in keys)
    && (forall k :: k in keys ==> k in order)
  }

  /** The loop ends with a fault only if the map has it, and without one only if it has none. */
  lemma {:induction false} EndsRightly(c: Conversions, attrs: Attributes, order: seq<string>)
    ensures EndsIn(c, attrs, order) == Crashes ==> HasNull(attrs)
    ensures EndsIn(c, attrs, order) == Errs ==> Unparsable(c, attrs)
    ensures EndsIn(c, attrs, order) == Finishes ==> forall k :: k in attrs && k in order ==> FaultOf(c, attrs[k]) == Finishes
  {
    if order != [] {
      EndsRightly(c, attrs, order[1..]);
      assert forall k :: k in order ==> k == order[0] || k in order[1..];
    }
  }

  /** The ending is the same in every order, and then told by the map alone, if and only if the map does not hold both a
      null and an unparsable set datetime. */
  lemma OrderDecides(c: Conversions, attrs: Attributes)
    ensures (forall a, b :: Iteration(a, attrs.Keys) && Iteration(b, attrs.Keys) ==> EndsIn(c, attrs, a) == EndsIn(c, attrs, b))
            <==> !(HasNull(attrs) && Unparsable(c, attrs))
  {
    if HasNull(attrs) && Unparsable(c, attrs) {
      var nil :| nil in attrs && attrs[nil].None?;
      var bad :| bad in attrs && BadTime(c, attrs[bad]);
      var a := OrderFrom(attrs.Keys, nil);
      var b := OrderFrom(attrs.Keys, bad);
      assert EndsIn(c, attrs, a) == Crashes && EndsIn(c, attrs, b) == Errs;
    } else {
      forall a, b | Iteration(a, attrs.Keys) && Iteration(b, attrs.Keys) ensures EndsIn(c, attrs, a) == EndsIn(c, attrs, b) {
        EndsAs(c, attrs, a);
        EndsAs(c, attrs, b);
      }
    }
  }

  /** What the ending says about the map, for any order of it. */
  lemma EndsAs(c: Conversions, attrs: Attributes, visit: seq<string>)
    ensures var e := Ends(c, attrs, visit);
            && (e == Finishes <==> !HasNull(attrs) && !Unparsable(c, attrs))
            && (e == Crashes ==> HasNull(attrs))
            && (e == Errs ==> Unparsable(c, attrs))
  {
    if Iteration(visit, attrs.Keys) {
      EndsRightly(c, attrs, visit);
      if EndsIn(c, attrs, visit) == Finishes {
        forall k | k in attrs ensures FaultOf(c, attrs[k]) == Finishes {
          assert k in attrs.Keys;
        }
      }
    }
  }

  lemma {:induction false} SomeOrder<K>(keys: set<K>) returns (order: seq<K>)
    ensures Iteration(order, keys)
    decreases |keys|
  {
    if keys == {} {
      order := [];
    } else {
      var n :| n in keys;
      var rest := SomeOrder(keys - {n});
      order := rest + [n];
      assert forall k :: k in order <==> k in rest || k == n;
    }
  }

  lemma OrderFrom<K>(keys: set<K>, first: K) returns (order: seq<K>)
    requires first in keys
    ensures Iteration(order, keys) && order != [] && order[0] == first
  {
    var rest := SomeOrder(keys - {first});
    order := [first] + rest;
    assert forall k :: k in order <==> k in rest || k == first;
  }

  /** Some order in which a map can be visited. */
  method Visit<K(==)>(keys: set<K>) returns (order: seq<K>)
    ensures Iteration(order, keys)
  {
    order := [];
    var left := keys;
    while left != {}
      invariant left <= keys
      invariant Iteration(order, keys - left)
      decreases |left|
    {
      var k :| k in left;
      ghost var before := order;
      order := order + [k];
      assert forall x :: x in order <==> x in before || x == k;
      left := left - {k};
    }
    assert keys - left == keys;
  }

  /** Distinct pairs that are the entries of a map make up that map. */
  lemma SameUpdates(sau: seq<(string, Update)>, made: map<string, Update>, updates: map<string, Update>)
    requires forall i, j :: 0 <= i < j < |sau| ==> sau[i].0 != sau[j].0
    requires forall k, u :: (k, u) in sau <==> k in updates && updates[k] == u
    requires made.Keys == set i | 0 <= i < |sau| :: sau[i].0
    requires forall i :: 0 <= i < |sau| ==> made[sau[i].0] == sau[i].1
    ensures made == updates
  {
    forall k | k in made ensures k in updates && made[k] == updates[k] {
      var i :| 0 <= i < |sau| && sau[i].0 == k;
      assert (k, sau[i].1) in sau;
    }
    forall k | k in updates ensures k in made {
      assert (k, updates[k]) in sau;
      var i :| 0 <= i < |sau| && sau[i] == (k, updates[k]);
      assert sau[i].0 == k;
    }
  }

  /** The inner loop of a keyword list. */
  method CollectStrings(items: seq<Any>) returns (res: seq<string>)
    ensures res == Strings(items)
  {
    res := [];
    for i := 0 to |items|
      invariant res == Strings(items[..i])
    {
      assert items[..i + 1] == items[..i] + [items[i]];
      StringsConcat(items[..i], [items[i]]);
      if items[i].Str? {
        res := res + [items[i].s];
      }
    }
    assert items[..|items|] == items;
  }

  /** The body of the loop over the attributes. */
  method ConvertOne(c: Conversions, a: Attribute) returns (v: Converted)
    ensures v == Convert(c, a)
  {
    if a.kind.OtherType? {
      v := Skip;
    } else if a.operation == UNSET {
      v := Put(ValueUnset(a.kind));
    } else if a.kind.DatetimeType? && a.value.Str? {
      var t := c.parseTime(a.value.s);
      v := if t.None? then Fail else Put(ValueSet(TTime(t.value)));
    } else if a.kind.KeywordListType? && a.value.List? {
      var res := CollectStrings(a.value.items);
      v := Put(ValueSet(Gathered(res)));
    } else {
      v := Convert(c, a);
    }
  }

  /** The updates of the first `n` keys, in iteration order. */
  ghost predicate Collected(c: Conversions, attrs: Attributes, keys: seq<string>, sau: seq<(string, Update)>) {
    && (forall i, j :: 0 <= i < j < |sau| ==> sau[i].0 != sau[j].0)
    && (forall i :: 0 <= i < |sau| ==> sau[i].0 in keys && sau[i].0 in Updates(c, attrs) && Updates(c, attrs)[sau[i].0] == sau[i].1)
    && (forall k :: k in keys && k in Updates(c, attrs) ==> (k, Updates(c, attrs)[k]) in sau)
  }

  /** The loop of the typed upsert: the first null or unparsable set datetime it comes to ends it, and without one it
      gathers exactly the updates of the map, one per key. */
  method Collect(c: Conversions, attrs: Attributes, order: seq<string>) returns (end: Ending, sau: seq<(string, Update)>)
    requires Iteration(order, attrs.Keys)
    ensures end == EndsIn(c, attrs, order)
    ensures end == Finishes ==> |sau| == |Updates(c, attrs)|
    ensures end == Finishes ==> forall i, j :: 0 <= i < j < |sau| ==> sau[i].0 != sau[j].0
    ensures end == Finishes ==> forall k, u :: (k, u) in sau <==> k in Updates(c, attrs) && Updates(c, attrs)[k] == u
  {
    hide Convert;
    hide BadTime;
    sau := [];
    for i := 0 to |order|
      invariant Collected(c, attrs, order[..i], sau)
      invariant EndsIn(c, attrs, order[i..]) == EndsIn(c, attrs, order)
    {
      var k := order[i];
      assert k in attrs.Keys;
      assert order[i..][0] == k && order[i..][1..] == order[i + 1..];
      assert order[..i + 1] == order[..i] + [k];
      if attrs[k].None? {
        return Crashes, [];
      }
      ghost var before := sau;
      var v := ConvertOne(c, attrs[k].value);
      FailsOnBadTime(c, attrs[k].value);
      if v.Fail? {
        return Errs, [];
      }
      if v.Put? {
        sau := sau + [(k, v.update)];
      }
      CollectedStep(c, attrs, order[..i], k, before, sau);
    }
    assert order[..|order|] == order;
    end := Finishes;
    KeysOf(c, attrs, order, sau);
  }

  /** The updates gathered in the order of `visit`, or with nulls first where that is no order of the map. */
  method Gather(c: Conversions, attrs: Attributes, visit: seq<string>) returns (end: Ending, updates: map<string, Update>)
    ensures end == Ends(c, attrs, visit)
    ensures end == Finishes ==> updates == Updates(c, attrs)
  {
    hide Updates;
    hide Unparsable;
    hide BadTime;
    var order := visit;
    if !Iteration(visit, attrs.Keys) {
      order := NullsFirst(c, attrs);
    }
    var sau: seq<(string, Update)>;
    end, sau := Collect(c, attrs, order);
    if end != Finishes {
      return end, map[];
    }
    updates := map i | 0 <= i < |sau| :: sau[i].0 := sau[i].1;
    SameUpdates(sau, updates, Updates(c, attrs));
  }

  lemma Joined<K>(a: seq<K>, b: seq<K>, keys: set<K>, others: set<K>)
    requires Iteration(a, keys) && Iteration(b, others) && keys !! others
    ensures Iteration(a + b, keys + others)
  {
    var order := a + b;
    forall i, j | 0 <= i < j < |order| ensures order[i] != order[j] {
      if i < |a| <= j {
        assert order[i] in a && order[j] in b;
      }
    }
    assert forall k :: k in order <==> k in a || k in b;
  }

  method NullsFirst(c: Conversions, attrs: Attributes) returns (order: seq<string>)
    ensures Iteration(order, attrs.Keys)
    ensures EndsIn(c, attrs, order) == if HasNull(attrs) then Crashes else if Unparsable(c, attrs) then Errs else Finishes
  {
    hide BadTime;
    var nulls := set k | k in attrs && attrs[k].None?;
    var first := Visit(nulls);
    var rest := Visit(attrs.Keys - nulls);
    order := first + rest;
    Joined(first, rest, nulls, attrs.Keys - nulls);
    assert nulls + (attrs.Keys - nulls) == attrs.Keys;
    EndsAs(c, attrs, order);
    if HasNull(attrs) {
      var k :| k in attrs && attrs[k].None?;
      assert k in nulls;
      assert order[0] in first;
    }
  }

  lemma CollectedStep(c: Conversions, attrs: Attributes, keys: seq<string>, k: string, before: seq<(string, Update)>, sau: seq<(string, Update)>)
    requires k in attrs && k !in keys
    requires Collected(c, attrs, keys, before)
    requires sau == before + (if Updating(c, attrs[k]) then [(k, Convert(c, attrs[k].value).update)] else [])
    ensures Collected(c, attrs, keys + [k], sau)
  {
    forall q | q in keys + [k] && q in Updates(c, attrs)
      ensures (q, Updates(c, attrs)[q]) in sau
    {
      if q == k {
        assert sau[|before|] == (q, Updates(c, attrs)[q]);
      } else {
        assert (q, Updates(c, attrs)[q]) in before;
      }
    }
  }

  /** Distinct keys covering a map count it. */
  lemma KeysOf(c: Conversions, attrs: Attributes, keys: seq<string>, sau: seq<(string, Update)>)
    requires Collected(c, attrs, keys, sau)
    requires forall k :: k in attrs ==> k in keys
    ensures |sau| == |Updates(c, attrs)|
    ensures forall k, u :: (k, u) in sau <==> k in Updates(c, attrs) && Updates(c, attrs)[k] == u
  {
    var names := set i | 0 <= i < |sau| :: sau[i].0;
    assert names == Updates(c, attrs).Keys by {
      forall k | k in Updates(c, attrs).Keys ensures k in names {
        assert (k, Updates(c, attrs)[k]) in sau;
        var i :| 0 <= i < |sau| && sau[i] == (k, Updates(c, attrs)[k]);
        assert sau[i].0 == k;
      }
    }
    DistinctCount(sau, names);
    forall k, u | (k, u) in sau
      ensures k in Updates(c, attrs) && Updates(c, attrs)[k] == u
    {
      var i :| 0 <= i < |sau| && sau[i] == (k, u);
      assert sau[i].0 == k;
    }
  }

  lemma {:induction false} DistinctCount(sau: seq<(string, Update)>, names: set<string>)
    requires forall i, j :: 0 <= i < j < |sau| ==> sau[i].0 != sau[j].0
    requires names == set i | 0 <= i < |sau| :: sau[i].0
    ensures |names| == |sau|
  {
    if sau != [] {
      var rest := sau[..|sau| - 1];
      var others := set i | 0 <= i < |rest| :: rest[i].0;
      DistinctCount(rest, others);
      var last := sau[|sau| - 1].0;
      assert last !in others;
      assert names == others + {last} by {
        forall n | n in names ensures n in others + {last} {
          var i :| 0 <= i < |sau| && sau[i].0 == n;
          if i < |rest| { assert rest[i].0 == n; }
        }
        forall n | n in others ensures n in names {
          var i :| 0 <= i < |rest| && rest[i].0 == n;
          assert sau[i].0 == n;
        }
        assert sau[|sau| - 1].0 == last;
      }
    }
  }

  /** The loop comes to its end exactly when every key holds an attribute and none of them fails to convert; and only a
      datetime fails. */
  lemma FinishesWhen(c: Conversions, attrs: Attributes, visit: seq<string>)
    ensures Ends(c, attrs, visit) == Finishes <==> forall k :: k in attrs ==> attrs[k].Some? && !Convert(c, attrs[k].value).Fail?
  {
    EndsAs(c, attrs, visit);
    forall k | k in attrs && attrs[k].Some? {
      FailsOnBadTime(c, attrs[k].value);
    }
  }

  // ---- what an upsert updates ----

  /** The shapes of a value each type takes. */
  predicate Takes(c: Conversions, kind: AttributeType, v: Any) {
    match kind
    case BoolType => v.Bool?
    case FloatType => v.Float?
    case IntType => v.Int? || v.Float? || (v.Str? && Decimal.ParseInt(v.s).Some?)
    case KeywordType => v.Str?
    case KeywordListType => v.Strs? || v.NilStrs? || v.List?
    case StringType => v.Str?
    case DatetimeType => v.Str? && c.parseTime(v.s).Some?
    case OtherType(_) => false
  }

  /** The integer part of a float64 that an int64 can hold. */
  predicate TowardZero(r: real, i: int) {
    -INT64 as real - 1.0 < r < INT64 as real ==>
      if r >= 0.0 then i as real <= r < i as real + 1.0 else i as real - 1.0 < r <= i as real
  }

  /** The typed value each of them stands for. */
  predicate Means(c: Conversions, kind: AttributeType, v: Any, t: Typed) {
    match (kind, v)
    case (BoolType, Bool(b)) => t == TBool(b)
    case (FloatType, Float(r)) => t == TFloat(r)
    case (IntType, Int(i)) => t.TInt? && (-INT64 <= i < INT64 ==> t.i == i)
    case (IntType, Float(r)) => t.TInt? && TowardZero(r, t.i)
    case (IntType, Str(s)) => t.TInt? && Decimal.ParseInt(s) == Some(t.i)
    case (KeywordType, Str(s)) => t == TKeyword(s)
    case (KeywordListType, Strs(strs)) => t == TKeywords(strs)
    case (KeywordListType, NilStrs) => t == TNoKeywords
    case (KeywordListType, List(items)) => t == if Strings(items) == [] then TNoKeywords else TKeywords(Strings(items))
    case (StringType, Str(s)) => t == TText(s)
    case (DatetimeType, Str(s)) => t.TTime? && c.parseTime(s) == Some(t.t)
    case _ => false
  }

  lemma TruncateMeans(r: real)
    ensures TowardZero(r, Truncate(r))
  {
    if r >= 0.0 {
      assert r.Floor as real <= r < r.Floor as real + 1.0;
      assert r < INT64 as real ==> 0 <= r.Floor < INT64;
    } else {
      var n := (-r).Floor;
      assert n as real <= -r < n as real + 1.0;
      assert -INT64 as real - 1.0 < r ==> 0 <= n <= INT64;
    }
  }

  lemma ConvertMeans(c: Conversions, a: Attribute)
    requires a.operation != "unset"
    ensures var v := Convert(c, a);
            && (v.Put? <==> Takes(c, a.kind, a.value))
            && (v.Put? ==> v.update.ValueSet? && KindOf(v.update.value) == a.kind && Means(c, a.kind, a.value, v.update.value))
  {
    if a.value.Float? {
      TruncateMeans(a.value.r);
    }
    hide Truncate;
    hide TowardZero;
    hide Strings;
    hide Decimal.ParseInt;
  }

  /** What a map of attributes updates, key by key: the attribute is unset exactly if its operation is "unset", whatever its
      value; with any other operation it is set if its value has a shape its type takes, to the value meant; and nothing
      else is touched. */
  lemma UpdatesAre(c: Conversions, attrs: Attributes, k: string)
    ensures k in Updates(c, attrs) <==>
            k in attrs && attrs[k].Some? && !attrs[k].value.kind.OtherType? &&
            (attrs[k].value.operation == "unset" || Takes(c, attrs[k].value.kind, attrs[k].value.value))
    ensures k in Updates(c, attrs) ==>
              var a, u := attrs[k].value, Updates(c, attrs)[k];
              if a.operation == "unset" then u == ValueUnset(a.kind)
              else u.ValueSet? && KindOf(u.value) == a.kind && Means(c, a.kind, a.value, u.value)
  {
    if k in attrs && attrs[k].Some? {
      var a := attrs[k].value;
      if a.operation == "unset" {
        UnsetMeans(c, a);
      } else {
        ConvertMeans(c, a);
        OtherTakes(c, a);
      }
    }
    hide Convert;
    hide Takes;
    hide Means;
  }

  lemma OtherTakes(c: Conversions, a: Attribute)
    ensures a.kind.OtherType? ==> !Takes(c, a.kind, a.value)
  {
  }

  lemma UnsetMeans(c: Conversions, a: Attribute)
    requires a.operation == "unset"
    ensures Convert(c, a) == if a.kind.OtherType? then Skip else Put(ValueUnset(a.kind))
  {
    hide Strings;
    hide Truncate;
  }

  /** The strings of a list are those of its parts, in order. */
  lemma {:induction false} StringsConcat(a: seq<Any>, b: seq<Any>)
    ensures Strings(a + b) == Strings(a) + Strings(b)
    ensures forall v :: Strings([v]) == if v.Str? then [v.s] else []
  {
    if a == [] {
      assert a + b == b;
    } else {
      assert (a + b)[1..] == a[1..] + b;
      StringsConcat(a[1..], b);
    }
    forall v ensures Strings([v]) == if v.Str? then [v.s] else [] {
      assert [v][1..] == [];
    }
  }

  // ---- the start table ----

  /** The attribute the start table makes of an indexed value, if it has the type's own shape. */
  function Start(c: Conversions, kind: AttributeType, v: Any): Option<Attribute> {
    match (kind, v)
    case (StringType, Str(_)) => Some(Attribute(kind, "", v))
    case (KeywordType, Str(_)) => Some(Attribute(kind, "", v))
    case (IntType, Int(_)) => Some(Attribute(kind, "", v))
    case (IntType, Str(s)) =>
      var n := Decimal.ParseInt(s);
      if n.Some? then Some(Attribute(kind, "", Int(n.value))) else None
    case (FloatType, Float(_)) => Some(Attribute(kind, "", v))
    case (BoolType, Bool(_)) => Some(Attribute(kind, "", v))
    case (DatetimeType, Instant(t)) => Some(Attribute(kind, "", Str(c.formatTime(t))))
    case (KeywordListType, Strs(_)) => Some(Attribute(kind, "", v))
    case (KeywordListType, NilStrs) => Some(Attribute(kind, "", v))
    case _ => None
  }

  /** The key of a search attribute is its name and its type. */
  datatype Key = Key(name: string, kind: AttributeType)

  type Indexed = map<Key, Any>

  function Started(c: Conversions, tsa: Indexed, k: Key): Option<Attribute>
    requires k in tsa
  {
    Start(c, k.kind, tsa[k])
  }

  /** The table made in some order of the keys: of two attributes of one name the later stays. */
  function StartTable(c: Conversions, tsa: Indexed, order: seq<Key>): Attributes {
    if order == [] then map[]
    else
      var k := order[|order| - 1];
      var before := StartTable(c, tsa, order[..|order| - 1]);
      if k in tsa && Started(c, tsa, k).Some? then before[k.name := Started(c, tsa, k)] else before
  }

  /** What one typed key makes: exactly the shapes of its type are taken, integers also as strings, and datetimes are
      formatted. */
  lemma StartedAre(c: Conversions, tsa: Indexed, k: Key)
    requires k in tsa
    ensures Started(c, tsa, k).Some? <==>
            match k.kind
            case BoolType => tsa[k].Bool?
            case FloatType => tsa[k].Float?
            case IntType => tsa[k].Int? || (tsa[k].Str? && Decimal.ParseInt(tsa[k].s).Some?)
            case KeywordType => tsa[k].Str?
            case KeywordListType => tsa[k].Strs? || tsa[k].NilStrs?
            case StringType => tsa[k].Str?
            case DatetimeType => tsa[k].Instant?
            case OtherType(_) => false
    ensures Started(c, tsa, k).Some? ==>
              var a := Started(c, tsa, k).value;
              && a.kind == k.kind && a.operation == ""
              && a.value == (if k.kind.DatetimeType? then Str(c.formatTime(tsa[k].t))
                             else if k.kind.IntType? && tsa[k].Str? then Int(Decimal.ParseInt(tsa[k].s).value)
                             else tsa[k])
  {
    hide Decimal.ParseInt;
  }

  /** No two keys of one name both make an attribute. */
  predicate Unambiguous(c: Conversions, tsa: Indexed) {
    forall j, k :: j in tsa && k in tsa && j.name == k.name && Started(c, tsa, j).Some? && Started(c, tsa, k).Some? ==> j == k
  }

  /** Every name in the table got its attribute from one of its keys, and every key that makes one is in it. */
  lemma {:induction false} StartTableHolds(c: Conversions, tsa: Indexed, order: seq<Key>, name: string)
    ensures name in StartTable(c, tsa, order) <==> exists k :: k in order && k in tsa && k.name == name && Started(c, tsa, k).Some?
    ensures name in StartTable(c, tsa, order) ==>
              exists k :: k in order && k in tsa && k.name == name && Started(c, tsa, k).Some? && StartTable(c, tsa, order)[name] == Started(c, tsa, k)
  {
    hide Start;
    if order != [] {
      var before, last := order[..|order| - 1], order[|order| - 1];
      StartTableHolds(c, tsa, before, name);
      assert order == before + [last];
      assert forall k :: k in order <==> k in before || k == last;
    }
  }

  /** The start table is a function of the environment's attributes, whatever the order they are visited in, if and only
      if no two keys of one name both make an attribute. */
  lemma StartOrderDecides(c: Conversions, tsa: Indexed)
    ensures (forall a, b :: Iteration(a, tsa.Keys) && Iteration(b, tsa.Keys) ==> StartTable(c, tsa, a) == StartTable(c, tsa, b))
            <==> Unambiguous(c, tsa)
  {
    if Unambiguous(c, tsa) {
      forall a, b | Iteration(a, tsa.Keys) && Iteration(b, tsa.Keys) ensures StartTable(c, tsa, a) == StartTable(c, tsa, b) {
        SameTables(c, tsa, a, b);
      }
    } else {
      var j, k :| j in tsa && k in tsa && j.name == k.name && Started(c, tsa, j).Some? && Started(c, tsa, k).Some? && j != k;
      var a := OrderTo(tsa.Keys, j);
      var b := OrderTo(tsa.Keys, k);
      assert StartTable(c, tsa, a)[j.name] == Started(c, tsa, j);
      assert StartTable(c, tsa, b)[j.name] == Started(c, tsa, k);
      StartedKind(c, tsa, j);
      StartedKind(c, tsa, k);
    }
  }

  lemma StartedKind(c: Conversions, tsa: Indexed, k: Key)
    requires k in tsa && Started(c, tsa, k).Some?
    ensures Started(c, tsa, k).value.kind == k.kind
  {
  }

  lemma OrderTo<K>(keys: set<K>, last: K) returns (order: seq<K>)
    requires last in keys
    ensures Iteration(order, keys) && order != [] && order[|order| - 1] == last
  {
    var rest := SomeOrder(keys - {last});
    order := rest + [last];
    assert forall k :: k in order <==> k in rest || k == last;
  }

  lemma SameTables(c: Conversions, tsa: Indexed, a: seq<Key>, b: seq<Key>)
    requires Unambiguous(c, tsa) && Iteration(a, tsa.Keys) && Iteration(b, tsa.Keys)
    ensures StartTable(c, tsa, a) == StartTable(c, tsa, b)
  {
    hide Start;
    hide StartTable;
    var s, t := StartTable(c, tsa, a), StartTable(c, tsa, b);
    forall name ensures (name in s <==> name in t) && (name in s ==> s[name] == t[name]) {
      StartTableHolds(c, tsa, a, name);
      StartTableHolds(c, tsa, b, name);
      assert forall k :: k in a <==> k in tsa.Keys;
      assert forall k :: k in b <==> k in tsa.Keys;
    }
  }

  /** The loop of Execute over the environment's attributes. */
  method BuildStartTable(c: Conversions, tsa: Indexed, order: seq<Key>) returns (table: Attributes)
    ensures table == StartTable(c, tsa, order)
  {
    table := map[];
    for i := 0 to |order|
      invariant table == StartTable(c, tsa, order[..i])
    {
      var k := order[i];
      assert order[..i + 1][..i] == order[..i];
      if k in tsa {
        var a := Start(c, k.kind, tsa[k]);
        if a.Some? {
          table := table[k.name := a];
        }
      }
    }
    assert order[..|order|] == order;
  }

  /** The value the SDK holds for a typed attribute. */
  function Stored(v: Typed): Any {
    match v
    case TBool(b) => Bool(b)
    case TFloat(r) => Float(r)
    case TInt(i) => Int(i)
    case TKeyword(s) => Str(s)
    case TKeywords(strs) => Strs(strs)
    case TNoKeywords => NilStrs
    case TText(s) => Str(s)
    case TTime(t) => Instant(t)
  }

  /** A value marshalled to JSON and read back as a dynamically typed one. */
  function Json(c: Conversions, v: Any): Any {
    match v
    case Int(i) => Float(c.toFloat(i))
    case NilStrs => Nil
    case Strs(strs) => List(seq(|strs|, i requires 0 <= i < |strs| => Str(strs[i])))
    case List(items) => List(seq(|items|, i requires 0 <= i < |items| => Json(c, items[i])))
    case _ => v
  }

  function JsonTable(c: Conversions, attrs: Attributes): Attributes {
    map k | k in attrs :: if attrs[k].None? then None else Some(attrs[k].value.(value := Json(c, attrs[k].value.value)))
  }

  /** Sent to the worker and back, exactly these values survive: integers that float64 has, whole seconds RFC 3339 has,
      keyword lists that are not nil, and everything of the other types. */
  predicate Survives(c: Conversions, v: Typed) {
    match v
    case TInt(i) => -INT64 <= i < INT64 && c.toFloat(i) == i as real
    case TTime(t) => Writable(t) && t % SECOND == 0
    case TNoKeywords => false
    case _ => true
  }

  /** What comes back of a value that survives: an empty keyword list comes back as a nil one. */
  function Returned(v: Typed): Typed {
    if v == TKeywords([]) then TNoKeywords else v
  }

  lemma TruncateWhole(c: Conversions, i: int)
    requires Lawful(c)
    ensures Truncate(c.toFloat(i)) == i <==> -INT64 <= i < INT64 && c.toFloat(i) == i as real
  {
    var r := c.toFloat(i);
    if -INT64 <= i < INT64 {
      assert WholeFloat(r, i);
      var n := r.Floor;
      FloorOfInt(n);
      FloorOfInt(-n);
      assert r == n as real && -INT64 <= n <= INT64;
      assert Truncate(r) == Signed(n);
    }
  }

  lemma {:induction false} StringsOfStrs(strs: seq<string>, items: seq<Any>)
    requires |items| == |strs| && forall i :: 0 <= i < |strs| ==> items[i] == Str(strs[i])
    ensures Strings(items) == strs
  {
    if strs != [] {
      StringsOfStrs(strs[1..], items[1..]);
    }
  }

  /** What one value becomes through the start table, JSON and the upsert table. */
  function ThereAndBack(c: Conversions, v: Typed): Converted {
    match Start(c, KindOf(v), Stored(v))
    case Some(a) => Convert(c, a.(value := Json(c, a.value)))
    case None => Skip
  }

  /** A value comes back as it was if and only if it survives and is no empty keyword list, which comes back nil. An
      instant that cannot be written fails the upsert, a nil keyword list is skipped, everything else keeps its type. */
  lemma ValueRoundTrip(c: Conversions, v: Typed)
    requires Lawful(c)
    ensures Start(c, KindOf(v), Stored(v)).Some?
    ensures var r := ThereAndBack(c, v);
            && (r == Put(ValueSet(Returned(v))) <==> Survives(c, v))
            && (r == Put(ValueSet(v)) <==> Survives(c, v) && v != TKeywords([]))
            && (r.Fail? <==> v.TTime? && !Writable(v.t))
            && (r.Skip? <==> v.TNoKeywords?)
            && (r.Put? ==> r.update.ValueSet? && KindOf(r.update.value) == KindOf(v))
  {
    if v.TKeywords? {
      var items := seq(|v.strs|, i requires 0 <= i < |v.strs| => Str(v.strs[i]));
      StringsOfStrs(v.strs, items);
    }
    if v.TInt? {
      TruncateWhole(c, v.i);
    }
    hide Truncate;
  }

  /** An empty keyword list lives for one round trip: the second one loses it. */
  lemma EmptyListFades(c: Conversions)
    requires Lawful(c)
    ensures ThereAndBack(c, TKeywords([])) == Put(ValueSet(TNoKeywords)) && ThereAndBack(c, TNoKeywords) == Skip
  {
    ValueRoundTrip(c, TKeywords([]));
  }

  /** Integers up to 2^53, whole-second datetimes and keyword lists survive; so does everything of the other four types. */
  lemma SurvivesWhen(c: Conversions, v: Typed)
    requires Lawful(c) && v != TNoKeywords
    requires v.TInt? ==> -EXACT <= v.i <= EXACT
    requires v.TTime? ==> Writable(v.t) && v.t % SECOND == 0
    ensures Survives(c, v)
  {
  }

  lemma FloorOfInt(n: int)
    ensures (n as real).Floor == n
    ensures -((-n) as real) == n as real
  {
  }

  /** The key a typed value is indexed under. */
  function IndexOf(values: map<string, Typed>): Indexed {
    map k | k in values :: Key(k, KindOf(values[k])) := Stored(values[k])
  }

  lemma Indexes(values: map<string, Typed>, name: string)
    requires name in values
    ensures Key(name, KindOf(values[name])) in IndexOf(values) && IndexOf(values)[Key(name, KindOf(values[name]))] == Stored(values[name])
  {
  }

  /** One value of each name: the table has them all, in any order. */
  lemma IndexedTable(c: Conversions, values: map<string, Typed>, order: seq<Key>, name: string)
    requires Lawful(c) && Iteration(order, IndexOf(values).Keys)
    ensures var t := StartTable(c, IndexOf(values), order);
            && (name in t <==> name in values)
            && (name in values ==> t[name] == Start(c, KindOf(values[name]), Stored(values[name])))
  {
    hide Start;
    hide StartTable;
    var tsa := IndexOf(values);
    StartTableHolds(c, tsa, order, name);
    if name in values {
      var k := Key(name, KindOf(values[name]));
      Indexes(values, name);
      ValueRoundTrip(c, values[name]);
      assert k in tsa.Keys;
      assert k in order && Started(c, tsa, k).Some?;
    }
    forall k | k in order && k.name == name ensures name in values && k == Key(name, KindOf(values[name])) {
      assert k in tsa.Keys;
    }
  }

  /** A datetime RFC 3339 cannot write. */
  predicate Unwritable(v: Typed) {
    v.TTime? && !Writable(v.t)
  }

  function Back(c: Conversions, values: map<string, Typed>, order: seq<Key>): Attributes {
    JsonTable(c, StartTable(c, IndexOf(values), order))
  }

  lemma BackAt(c: Conversions, values: map<string, Typed>, order: seq<Key>, k: string)
    requires Lawful(c) && Iteration(order, IndexOf(values).Keys)
    ensures var back := Back(c, values, order);
            && (k in back <==> k in values)
            && (k in values ==>
                  && back[k].Some? && Convert(c, back[k].value) == ThereAndBack(c, values[k])
                  && (BadTime(c, back[k]) <==> Unwritable(values[k]))
                  && (Updating(c, back[k]) <==> !values[k].TNoKeywords? && !Unwritable(values[k])))
  {
    hide Start;
    hide Convert;
    hide StartTable;
    hide BadTime;
    hide Json;
    hide Lawful;
    hide IndexOf;
    hide Stored;
    hide Iteration;
    IndexedTable(c, values, order, k);
    if k in values {
      ValueRoundTrip(c, values[k]);
      FailsOnBadTime(c, Back(c, values, order)[k].value);
    }
  }

  /** The start table sent to the worker and back through the upsert table, in any order: the upsert fails exactly if some
      datetime cannot be written; and it updates exactly the keys whose value is no nil keyword list and no such datetime,
      with the value as it was for every value that survives, an empty keyword list being nil then. */
  lemma TablesInvert(c: Conversions, values: map<string, Typed>, order: seq<Key>)
    requires Lawful(c) && Iteration(order, IndexOf(values).Keys)
    ensures var back := Back(c, values, order);
            && !HasNull(back)
            && (Unparsable(c, back) <==> exists k :: k in values && Unwritable(values[k]))
            && (forall k :: k in Updates(c, back) <==> k in values && !values[k].TNoKeywords? && !Unwritable(values[k]))
            && (forall k :: k in values && Survives(c, values[k]) ==> k in Updates(c, back) && Updates(c, back)[k] == ValueSet(Returned(values[k])))
  {
    hide Convert;
    hide BadTime;
    hide Lawful;
    hide IndexOf;
    hide Iteration;
    hide Back;
    hide Updating;
    hide ThereAndBack;
    forall k {
      BackAt(c, values, order, k);
    }
    forall k | k in values && Survives(c, values[k])
      ensures ThereAndBack(c, values[k]) == Put(ValueSet(Returned(values[k]))) && !values[k].TNoKeywords? && !Unwritable(values[k])
    {
      ValueRoundTrip(c, values[k]);
    }
  }

  /** Converting fails on an unparsable set datetime and on nothing else. */
  lemma FailsOnBadTime(c: Conversions, a: Attribute)
    ensures Convert(c, a).Fail? <==> BadTime(c, Some(a))
  {
  }
}

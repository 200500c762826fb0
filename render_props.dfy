/**
 * Properties of what the encoder writes (the Render module), each proved
 * against a second, independent definition:
 *
 * - `ErrorsOf` says which errors a value produces without mentioning any
 *   text, indentation or list position; the errors the encoder returns are
 *   exactly these, so they do not depend on where the value is printed.
 * - `RenderFields`, `RenderItems` and `RenderKeys` are front-to-back
 *   renderings of the printed fields, elements and keys; the encoder's loops
 *   produce the same text.
 * - A map's text does not depend on the order Go happens to list its keys in.
 */
module RenderProps {
  import opened Values
  import opened Tags
  import opened Options
  import opened Sorting
  import opened Render

  // ---------------------------------------------------------------------
  // Errors
  // ---------------------------------------------------------------------

  /** The errors of one struct field, as the struct loop collects them. */
  function FieldErrorsOf(c: Config, f: Field): seq<FieldError>
    decreases f, 0, 0
  {
    match PlanField(c, f)
    case Skip => []
    case TagFailure(e) => [FieldError([], BadTag(e))]
    case Emit(name) => Prefixed(name, ErrorsOf(c, f.value))
  }

  /** The errors a value produces: every failing marshaler and bad tag of a
      struct, the first failing element of a slice, the first failing value
      of a map in key order. */
  function ErrorsOf(c: Config, v: Value): seq<FieldError>
    decreases v, 2, 0
  {
    if IsMarshaler(v) then
      var m := MarshalerOf(v);
      if m.err.Some? then [FieldError([], MarshalFailed(m.err.value))] else []
    else if v.Ptr? && v.target.None? then []
    else
      var w := Deref(v);
      match w
      case Struct(fields) => FieldsErrors(c, w, |fields|)
      case List(elems, _) => ElemsErrors(c, w, |elems|)
      case Map(entries, _) => KeysErrors(c, w, |entries|)
      case _ => []
  }

  /** The errors of the first n fields, in declaration order. */
  function FieldsErrors(c: Config, v: Value, n: nat): seq<FieldError>
    requires v.Struct? && n <= |v.fields|
    decreases v, 0, n
  {
    if n == 0 then []
    else FieldsErrors(c, v, n - 1) + FieldErrorsOf(c, v.fields[n - 1])
  }

  /** The errors of the first failing element among the first n. */
  function ElemsErrors(c: Config, v: Value, n: nat): seq<FieldError>
    requires v.List? && n <= |v.elems|
    decreases v, 0, n
  {
    if n == 0 then []
    else
      var e := ElemsErrors(c, v, n - 1);
      if e != [] then e else ErrorsOf(c, v.elems[n - 1])
  }

  /** The errors of the first failing value among the first n sorted keys. */
  function KeysErrors(c: Config, v: Value, n: nat): seq<FieldError>
    requires v.Map? && n <= |v.entries|
    decreases v, 0, n
  {
    if n == 0 then []
    else
      var e := KeysErrors(c, v, n - 1);
      if e != [] then e else ErrorsOf(c, SortedValue(v.entries, n - 1))
  }

  /** The encoder returns exactly `ErrorsOf`, whatever the nesting level and
      list position the value is printed at. */
  lemma {:induction false} ValueErrors(c: Config, v: Value, level: nat, inList: bool)
    requires |c.listSymbols| > 0
    ensures ValueSpec(c, v, level, inList).errs == ErrorsOf(c, v)
    decreases v, 2, 0
  {
    if !IsMarshaler(v) && !(v.Ptr? && v.target.None?) {
      var w := Deref(v);
      match w
      case Struct(fields) =>
        StructErrors(c, w, level + 1, inList, |fields|);
      case List(elems, _) =>
        ListErrors(c, w, level + 1, |elems|);
      case Map(entries, _) =>
        MapErrors(c, w, level + 1, |entries|);
      case _ =>
    }
  }

  lemma {:induction false} StructErrors(c: Config, v: Value, level: nat, inList: bool, n: nat)
    requires |c.listSymbols| > 0 && v.Struct? && n <= |v.fields|
    ensures StructPrefix(c, v, level, inList, n).errs == FieldsErrors(c, v, n)
    decreases v, 0, n
  {
    if n > 0 {
      StructErrors(c, v, level, inList, n - 1);
      FieldErrors(c, v.fields[n - 1], level, StructPrefix(c, v, level, inList, n - 1).inList);
    }
  }

  /** One field adds the errors `FieldErrorsOf` names. */
  lemma FieldErrors(c: Config, f: Field, level: nat, inList: bool)
    requires |c.listSymbols| > 0
    ensures FieldDelta(c, f, level, inList).errs == FieldErrorsOf(c, f)
    decreases f, 1, 0
  {
    if PlanField(c, f).Emit? {
      ValueErrors(c, f.value, level, false);
    }
  }

  lemma {:induction false} ListErrors(c: Config, v: Value, level: nat, n: nat)
    requires |c.listSymbols| > 0 && level >= 1 && v.List? && n <= |v.elems|
    ensures ListPrefix(c, v, level, n).errs == ElemsErrors(c, v, n)
    decreases v, 0, n
  {
    if n > 0 {
      ListErrors(c, v, level, n - 1);
      ValueErrors(c, v.elems[n - 1], level, true);
    }
  }

  lemma {:induction false} MapErrors(c: Config, v: Value, level: nat, n: nat)
    requires |c.listSymbols| > 0 && level >= 1 && v.Map? && n <= |v.entries|
    ensures MapPrefix(c, v, level, n).errs == KeysErrors(c, v, n)
    decreases v, 0, n
  {
    if n > 0 {
      MapErrors(c, v, level, n - 1);
      ValueErrors(c, SortedValue(v.entries, n - 1), level, true);
    }
  }

  /** Encode fails exactly when the root struct has an error somewhere, and
      the errors are those of its fields in declaration order. */
  lemma DocumentErrors(c: Config, root: Value)
    requires |c.listSymbols| > 0 && root.Struct?
    ensures Document(c, root).errs == FieldsErrors(c, root, |root.fields|)
  {
    StructErrors(c, root, 0, false, |root.fields|);
  }

  /** A field with an invalid tag is reported, under no path, by Encode. */
  lemma TagErrorReported(c: Config, root: Value, i: nat, e: InvalidTag)
    requires |c.listSymbols| > 0 && root.Struct? && i < |root.fields|
    requires PlanField(c, root.fields[i]) == TagFailure(e)
    ensures FieldError([], BadTag(e)) in Document(c, root).errs
  {
    DocumentErrors(c, root);
    FieldErrorIn(c, root, |root.fields|, i, FieldError([], BadTag(e)));
  }

  /** An error of field i is among the errors of any n fields past it. */
  lemma {:induction false} FieldErrorIn(c: Config, v: Value, n: nat, i: nat, x: FieldError)
    requires v.Struct? && i < n <= |v.fields| && x in FieldErrorsOf(c, v.fields[i])
    ensures x in FieldsErrors(c, v, n)
    decreases n
  {
    var before, last := FieldsErrors(c, v, n - 1), FieldErrorsOf(c, v.fields[n - 1]);
    assert FieldsErrors(c, v, n) == before + last;
    if i < n - 1 {
      FieldErrorIn(c, v, n - 1, i, x);
      assert x in before;
    } else {
      assert x in last;
    }
  }

  /** A nested field's errors are reported under the display name of the
      field that holds them. */
  lemma NestedErrorsPrefixed(c: Config, root: Value, i: nat, name: string)
    requires |c.listSymbols| > 0 && root.Struct? && i < |root.fields|
    requires PlanField(c, root.fields[i]) == Emit(name)
    ensures forall x :: x in ErrorsOf(c, root.fields[i].value) ==>
      FieldError([name] + x.path, x.cause) in Document(c, root).errs
  {
    DocumentErrors(c, root);
    var inner := ErrorsOf(c, root.fields[i].value);
    forall x | x in inner
      ensures FieldError([name] + x.path, x.cause) in Document(c, root).errs
    {
      var j :| 0 <= j < |inner| && inner[j] == x;
      assert Prefixed(name, inner)[j] == FieldError([name] + x.path, x.cause);
      FieldErrorIn(c, root, |root.fields|, i, FieldError([name] + x.path, x.cause));
    }
  }

  /** A slice stops at its first failing element: nothing after it is
      printed, and its errors are that element's. */
  lemma {:induction false} ListFailFast(c: Config, v: Value, level: nat, n: nat)
    requires |c.listSymbols| > 0 && level >= 1 && v.List? && n <= |v.elems|
    requires ListPrefix(c, v, level, n).errs != []
    ensures exists i :: (0 <= i < n
      && (forall j :: 0 <= j < i ==> ValueSpec(c, v.elems[j], level, true).errs == [])
      && ListPrefix(c, v, level, n) == ListPrefix(c, v, level, i + 1)
      && ListPrefix(c, v, level, n).errs == ValueSpec(c, v.elems[i], level, true).errs)
    decreases n
  {
    var s := ListPrefix(c, v, level, n - 1);
    if s.errs != [] {
      ListFailFast(c, v, level, n - 1);
      var i :| 0 <= i < n - 1
        && (forall j :: 0 <= j < i ==> ValueSpec(c, v.elems[j], level, true).errs == [])
        && s == ListPrefix(c, v, level, i + 1)
        && s.errs == ValueSpec(c, v.elems[i], level, true).errs;
      assert ListPrefix(c, v, level, n) == s;
    } else {
      ListPrefixClean(c, v, level, n - 1);
    }
  }

  /** A slice prefix without errors has no failing element. */
  lemma {:induction false} ListPrefixClean(c: Config, v: Value, level: nat, n: nat)
    requires |c.listSymbols| > 0 && level >= 1 && v.List? && n <= |v.elems|
    requires ListPrefix(c, v, level, n).errs == []
    ensures forall j :: 0 <= j < n ==> ValueSpec(c, v.elems[j], level, true).errs == []
  {
    if n > 0 {
      ListPrefixClean(c, v, level, n - 1);
    }
  }

  // ---------------------------------------------------------------------
  // Text
  // ---------------------------------------------------------------------

  /** What one field contributes to the printed fields: its display name and value, if it is printed. */
  function PrintedField(c: Config, f: Field): (r: seq<(string, Value)>)
    ensures |r| <= 1
  {
    match PlanField(c, f)
    case Emit(name) => [(name, f.value)]
    case _ => []
  }

  /** The fields a struct prints, in declaration order, with their display names. */
  function Printed(c: Config, fs: seq<Field>): (r: seq<(string, Value)>)
    ensures |r| <= |fs|
  {
    if fs == [] then [] else PrintedField(c, fs[0]) + Printed(c, fs[1..])
  }

  /** The printed fields, one after the other: only the first one's label
      is shaped by the list position. */
  function RenderFields(c: Config, items: seq<(string, Value)>, level: nat, inList: bool): string
    requires |c.listSymbols| > 0
  {
    if items == [] then ""
    else
      Label(c, items[0].0, level, inList) + ValueSpec(c, items[0].1, level, false).out
      + RenderFields(c, items[1..], level, false)
  }

  lemma {:induction false} PrintedAppend(c: Config, a: seq<Field>, b: seq<Field>)
    ensures Printed(c, a + b) == Printed(c, a) + Printed(c, b)
    decreases |a|
  {
    if a != [] {
      assert (a + b)[0] == a[0] && (a + b)[1..] == a[1..] + b;
      PrintedAppend(c, a[1..], b);
      var head := PrintedField(c, a[0]);
      assert head + (Printed(c, a[1..]) + Printed(c, b)) == head + Printed(c, a[1..]) + Printed(c, b);
    } else {
      assert a + b == b;
    }
  }

  lemma {:induction false} RenderFieldsAppend(c: Config, a: seq<(string, Value)>, b: seq<(string, Value)>,
                                              level: nat, inList: bool)
    requires |c.listSymbols| > 0
    ensures RenderFields(c, a + b, level, inList)
         == RenderFields(c, a, level, inList) + RenderFields(c, b, level, inList && a == [])
    decreases |a|
  {
    if a != [] {
      assert (a + b)[0] == a[0] && (a + b)[1..] == a[1..] + b;
      RenderFieldsAppend(c, a[1..], b, level, false);
      var head := Label(c, a[0].0, level, inList) + ValueSpec(c, a[0].1, level, false).out;
      assert RenderFields(c, a + b, level, inList) == head + RenderFields(c, a[1..] + b, level, false);
      assert head + (RenderFields(c, a[1..], level, false) + RenderFields(c, b, level, false))
          == head + RenderFields(c, a[1..], level, false) + RenderFields(c, b, level, false);
    } else {
      assert a + b == b;
    }
  }

  /** A prefix of n elements is the prefix of n - 1 and the n-th element. */
  lemma TakeOneMore<T>(s: seq<T>, n: nat)
    requires 0 < n <= |s|
    ensures s[..n] == s[..n - 1] + [s[n - 1]]
  {
  }

  /** One field's text is the rendering of its printed part. */
  lemma FieldText(c: Config, f: Field, level: nat, inList: bool)
    requires |c.listSymbols| > 0
    ensures var d := FieldDelta(c, f, level, inList);
      && d.out == RenderFields(c, PrintedField(c, f), level, inList)
      && d.inList == (inList && PrintedField(c, f) == [])
  {
    if PlanField(c, f).Emit? {
      assert PrintedField(c, f)[1..] == [];
    }
  }

  /** After n fields the loop has printed exactly the printed fields among
      them, and is still "in the list" only if none was printed. */
  lemma {:induction false} StructText(c: Config, v: Value, level: nat, inList: bool, n: nat)
    requires |c.listSymbols| > 0 && v.Struct? && n <= |v.fields|
    ensures var s := StructPrefix(c, v, level, inList, n);
      && s.out == RenderFields(c, Printed(c, v.fields[..n]), level, inList)
      && s.inList == (inList && Printed(c, v.fields[..n]) == [])
  {
    if n > 0 {
      StructText(c, v, level, inList, n - 1);
      var s := StructPrefix(c, v, level, inList, n - 1);
      var f := v.fields[n - 1];
      var before := Printed(c, v.fields[..n - 1]);
      TakeOneMore(v.fields, n);
      PrintedAppend(c, v.fields[..n - 1], [f]);
      assert Printed(c, [f]) == PrintedField(c, f) by {
        assert [f][1..] == [];
      }
      RenderFieldsAppend(c, before, PrintedField(c, f), level, inList);
      FieldText(c, f, level, s.inList);
      var d := FieldDelta(c, f, level, s.inList);
      assert StructPrefix(c, v, level, inList, n) == StructState(s.out + d.out, d.inList, s.errs + d.errs);
      assert Printed(c, v.fields[..n]) == before + PrintedField(c, f);
    }
  }

  /** A struct field prints its label and value, in declaration order, exactly
      when it is exported, not anonymous, its tag parses, its value is not a
      nil interface, its name is not "-" and omitempty does not drop it. */
  lemma StructRendersPrintedFields(c: Config, v: Value, level: nat, inList: bool)
    requires |c.listSymbols| > 0 && v.Struct?
    ensures StructPrefix(c, v, level, inList, |v.fields|).out
         == RenderFields(c, Printed(c, v.fields), level, inList)
  {
    StructText(c, v, level, inList, |v.fields|);
    assert v.fields[..|v.fields|] == v.fields;
  }

  /** The first n elements of a slice, each after its bullet, with no
      element cut short. */
  function RenderItems(c: Config, v: Value, level: nat, n: nat): string
    requires |c.listSymbols| > 0 && level >= 1 && v.List? && n <= |v.elems|
  {
    if n == 0 then ""
    else RenderItems(c, v, level, n - 1) + ItemHeading(c, level) + ValueSpec(c, v.elems[n - 1], level, true).out
  }

  /** A slice without failing elements prints every element in order. */
  lemma {:induction false} ListText(c: Config, v: Value, level: nat, n: nat)
    requires |c.listSymbols| > 0 && level >= 1 && v.List? && n <= |v.elems|
    requires forall j :: 0 <= j < |v.elems| ==> ErrorsOf(c, v.elems[j]) == []
    ensures ListPrefix(c, v, level, n) == Outcome(RenderItems(c, v, level, n), [])
  {
    if n > 0 {
      ListText(c, v, level, n - 1);
      ValueErrors(c, v.elems[n - 1], level, true);
    }
  }

  /** The first n sorted keys of a map, each with its value, with no value
      cut short. */
  function RenderKeys(c: Config, v: Value, level: nat, n: nat): string
    requires |c.listSymbols| > 0 && level >= 1 && v.Map? && n <= |v.entries|
  {
    if n == 0 then ""
    else
      RenderKeys(c, v, level, n - 1) + KeyHeading(c, level, SortedKeys(v.entries)[n - 1])
      + ValueSpec(c, SortedValue(v.entries, n - 1), level, true).out
  }

  /** The value printed for a sorted key is one of the map's values. */
  lemma SortedValueClean(c: Config, es: seq<Entry>, n: nat)
    requires n < |es| && forall j :: 0 <= j < |es| ==> ErrorsOf(c, es[j].value) == []
    ensures ErrorsOf(c, SortedValue(es, n)) == []
  {
    var j :| 0 <= j < |es| && es[j].value == SortedValue(es, n);
  }

  /** A map without failing values prints every key string in ascending
      order, each with the value it looks up. */
  lemma {:induction false} MapText(c: Config, v: Value, level: nat, n: nat)
    requires |c.listSymbols| > 0 && level >= 1 && v.Map? && n <= |v.entries|
    requires forall j :: 0 <= j < |v.entries| ==> ErrorsOf(c, v.entries[j].value) == []
    ensures MapPrefix(c, v, level, n) == Outcome(RenderKeys(c, v, level, n), [])
  {
    if n > 0 {
      MapText(c, v, level, n - 1);
      SortedValueClean(c, v.entries, n - 1);
      ValueErrors(c, SortedValue(v.entries, n - 1), level, true);
    }
  }

  // ---------------------------------------------------------------------
  // Map iteration order
  // ---------------------------------------------------------------------

  /** No two entries share a key string. */
  predicate DistinctKeys(es: seq<Entry>)
  {
    forall i, j :: 0 <= i < j < |es| ==> es[i].key != es[j].key
  }

  /** Every string of s occurs once, counted in its multiset. */
  lemma {:induction false} DistinctCount(s: seq<string>, x: string)
    requires forall i, j :: 0 <= i < j < |s| ==> s[i] != s[j]
    ensures multiset(s)[x] == if x in s then 1 else 0
    decreases |s|
  {
    if s != [] {
      var t := s[..|s| - 1];
      assert s == t + [s[|s| - 1]];
      DistinctCount(t, x);
      if x in t {
        var i :| 0 <= i < |t| && t[i] == x;
        assert s[i] == x;
      }
    }
  }

  /** Two orders of the same entries list the same key strings. */
  lemma SameKeyMultiset(a: seq<Entry>, b: seq<Entry>)
    requires DistinctKeys(a) && DistinctKeys(b) && multiset(a) == multiset(b)
    ensures multiset(KeyStrings(a)) == multiset(KeyStrings(b))
  {
    var ka, kb := KeyStrings(a), KeyStrings(b);
    forall x
      ensures multiset(ka)[x] == multiset(kb)[x]
    {
      DistinctCount(ka, x);
      DistinctCount(kb, x);
      if x in ka {
        var i :| 0 <= i < |ka| && ka[i] == x;
        assert a[i] in multiset(b);
        var j :| 0 <= j < |b| && b[j] == a[i];
        assert kb[j] == x;
      }
      if x in kb {
        var j :| 0 <= j < |kb| && kb[j] == x;
        assert b[j] in multiset(a);
        var i :| 0 <= i < |a| && a[i] == b[j];
        assert ka[i] == x;
      }
    }
  }

  /** With distinct key strings, the value printed for a key is the one
      entry carrying it, wherever that entry is listed. */
  lemma SameSortedValue(a: seq<Entry>, b: seq<Entry>, n: nat)
    requires DistinctKeys(b) && multiset(a) == multiset(b) && n < |a|
    requires SortedKeys(a) == SortedKeys(b)
    ensures n < |b| && SortedValue(a, n) == SortedValue(b, n)
  {
    SortedKeyPresent(a, n);
    SortedKeyPresent(b, n);
    var k := SortedKeys(a)[n];
    var i := LastIndex(a, k);
    var j := LastIndex(b, k);
    assert a[i] in multiset(b);
    var j2 :| 0 <= j2 < |b| && b[j2] == a[i];
    assert b[j2].key == k == b[j].key;
    assert j2 == j;
  }

  lemma SameMapStep(c: Config, v: Value, u: Value, level: nat, n: nat)
    requires |c.listSymbols| > 0 && level >= 1 && v.Map? && u.Map? && 0 < n <= |v.entries| == |u.entries|
    requires SortedKeys(v.entries) == SortedKeys(u.entries)
    requires SortedValue(v.entries, n - 1) == SortedValue(u.entries, n - 1)
    requires MapPrefix(c, v, level, n - 1) == MapPrefix(c, u, level, n - 1)
    ensures MapPrefix(c, v, level, n) == MapPrefix(c, u, level, n)
  {
  }

  /** Two maps that print the same keys with the same values print the same. */
  lemma SameMapPrefix(c: Config, v: Value, u: Value, level: nat, n: nat)
    requires |c.listSymbols| > 0 && level >= 1 && v.Map? && u.Map? && n <= |v.entries| == |u.entries|
    requires SortedKeys(v.entries) == SortedKeys(u.entries)
    requires forall i :: 0 <= i < n ==> SortedValue(v.entries, i) == SortedValue(u.entries, i)
    ensures MapPrefix(c, v, level, n) == MapPrefix(c, u, level, n)
    decreases n
  {
    if n > 0 {
      SameMapPrefix(c, v, u, level, n - 1);
      SameMapStep(c, v, u, level, n);
    }
  }

  /** Go lists a map's keys in an unspecified order; as long as the key
      strings are distinct, the text and the errors do not depend on it. */
  lemma MapOrderIrrelevant(c: Config, v: Value, u: Value, level: nat)
    requires |c.listSymbols| > 0 && level >= 1 && v.Map? && u.Map?
    requires DistinctKeys(v.entries) && DistinctKeys(u.entries)
    requires multiset(v.entries) == multiset(u.entries)
    ensures |v.entries| == |u.entries|
    ensures MapPrefix(c, v, level, |v.entries|) == MapPrefix(c, u, level, |u.entries|)
  {
    SameKeyMultiset(v.entries, u.entries);
    assert |v.entries| == |multiset(v.entries)| == |multiset(u.entries)| == |u.entries|;
    SortedUnique(SortedKeys(v.entries), SortedKeys(u.entries));
    forall i | 0 <= i < |v.entries|
      ensures SortedValue(v.entries, i) == SortedValue(u.entries, i)
    {
      SameSortedValue(v.entries, u.entries, i);
    }
    SameMapPrefix(c, v, u, level, |v.entries|);
  }

  /** Without distinct key strings the listing order does matter: of two
      entries whose keys print alike, the one listed last supplies the value
      printed for both, so the same entries listed the other way round print
      differently. */
  lemma DuplicateKeyOrderMatters(c: Config, level: nat, k: string, a: Value, b: Value)
    requires |c.listSymbols| > 0 && level >= 1
    requires a.Scalar? && b.Scalar? && a.text != b.text
    ensures var v, u := Map([Entry(k, a), Entry(k, b)], false), Map([Entry(k, b), Entry(k, a)], false);
      multiset(v.entries) == multiset(u.entries) && MapPrefix(c, v, level, 1) != MapPrefix(c, u, level, 1)
  {
    var v, u := Map([Entry(k, a), Entry(k, b)], false), Map([Entry(k, b), Entry(k, a)], false);
    assert u.entries == [v.entries[1]] + [v.entries[0]];
    DuplicateKeyPrints(c, level, k, a, b);
    DuplicateKeyPrints(c, level, k, b, a);
    DistinctLines(KeyHeading(c, level, k), b.text, a.text);
  }

  /** Two different texts make different lines after the same heading. */
  lemma DistinctLines(h: string, x: string, y: string)
    requires x != y
    ensures h + (" " + x + "\n") != h + (" " + y + "\n")
  {
    assert (h + (" " + x + "\n"))[|h| + 1..|h| + 1 + |x|] == x;
    assert (h + (" " + y + "\n"))[|h| + 1..|h| + 1 + |y|] == y;
  }

  /** The first line a two-entry map with one key string prints: the key and the last-listed value. */
  lemma DuplicateKeyPrints(c: Config, level: nat, k: string, a: Value, b: Value)
    requires |c.listSymbols| > 0 && level >= 1 && b.Scalar?
    ensures MapPrefix(c, Map([Entry(k, a), Entry(k, b)], false), level, 1)
         == Outcome(KeyHeading(c, level, k) + (" " + b.text + "\n"), [])
  {
    var es := [Entry(k, a), Entry(k, b)];
    assert KeyStrings(es) == [k, k];
    assert SortedKeys(es)[0] in multiset(SortedKeys(es));
    assert LastIndex(es, k) == 1;
    assert ValueSpec(c, b, level, true) == KindSpec(c, b, b, level, true);
    assert MapPrefix(c, Map(es, false), level, 0) == Outcome("", []);
  }

  // ---------------------------------------------------------------------
  // Layout
  // ---------------------------------------------------------------------

  /** Up to the number of list symbols, nesting level i uses the i-th symbol. */
  lemma BulletsInOrder(c: Config, level: nat)
    requires |c.listSymbols| > 0 && 1 <= level <= |c.listSymbols|
    ensures Bullet(c, level) == c.listSymbols[level - 1]
  {
  }

  /** Every line a struct field writes at a nesting level outside a list
      starts with indent * level spaces. */
  lemma LabelIndent(c: Config, name: string, level: nat)
    ensures var l := Label(c, name, level, false);
      |l| == c.indent * level + |name| + 1
      && l[..c.indent * level] == Spaces(c.indent * level)
      && l[c.indent * level..] == name + ":"
  {
  }
}

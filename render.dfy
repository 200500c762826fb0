/**
 * What the encoder of encoder.go writes and which errors it returns, as
 * functions of the value and the settings.
 *
 * Each function follows one loop of the encoder: `StructPrefix(c, v, level,
 * inList, n)` is the state after the first n fields of a struct,
 * `ListPrefix` after the first n elements of a slice, `MapPrefix` after the
 * first n keys of a map in sorted order. The Encoder class in encoder.dfy
 * is proved to write exactly this text.
 */
module Render {
  import opened Values
  import opened Tags
  import opened Util
  import opened Options
  import opened Sorting

  /** Why a field could not be encoded. */
  datatype Cause = BadTag(invalid: InvalidTag) | MarshalFailed(message: string)

  /** One entry of the error tree: the display names leading to the failing
      field (empty for a tag error of the struct being walked) and the cause. */
  datatype FieldError = FieldError(path: seq<string>, cause: Cause)

  /** Text written and errors returned by one encode call. */
  datatype Outcome = Outcome(out: string, errs: seq<FieldError>)

  /** Text written, current `inList` flag and accumulated errors of the struct loop. */
  datatype StructState = StructState(out: string, inList: bool, errs: seq<FieldError>)

  /** strings.Repeat(" ", n) */
  function Spaces(n: nat): (s: string)
    ensures |s| == n
  {
    if n == 0 then "" else Spaces(n - 1) + " "
  }

  /** The indentation of a line at the given nesting level. */
  function Indent(c: Config, level: nat): string
  {
    Spaces(c.indent * level)
  }

  /** The list symbol used at a nesting level >= 1: the symbols are cycled by depth. */
  function Bullet(c: Config, level: nat): (b: string)
    requires |c.listSymbols| > 0 && level >= 1
    ensures b in c.listSymbols
  {
    c.listSymbols[(level - 1) % |c.listSymbols|]
  }

  /** What encodeSlice writes before an element. */
  function ItemHeading(c: Config, level: nat): string
    requires |c.listSymbols| > 0 && level >= 1
  {
    Indent(c, level) + Bullet(c, level)
  }

  /** What encodeMap writes before the value of a key. */
  function KeyHeading(c: Config, level: nat, key: string): string
    requires |c.listSymbols| > 0 && level >= 1
  {
    ItemHeading(c, level) + " " + key + ":"
  }

  /** Go exports a field whose name starts with an upper-case letter. */
  predicate IsExported(name: string)
  {
    |name| > 0 && IsAsciiUpper(name[0])
  }

  /** What the struct loop does with one field. */
  datatype FieldPlan = Skip | TagFailure(invalid: InvalidTag) | Emit(name: string)

  function PlanField(c: Config, f: Field): FieldPlan
  {
    if f.anonymous || !IsExported(f.name) then Skip
    else
      var p := ParseTagFromStructField(f.name, f.tags, c.tagName);
      if p.err.Some? then TagFailure(p.err.value)
      else if f.value.NilIface? || p.name == "-" || (p.omitEmpty && IsNilOrEmpty(f.value)) then Skip
      else Emit(p.name)
  }

  /** The label written before a field's value. */
  function Label(c: Config, name: string, level: nat, inList: bool): string
  {
    if inList then " " + name + ":" else Indent(c, level) + name + ":"
  }

  /** errortree.Add: the errors of a field, filed under the field's display name. */
  function Prefixed(name: string, errs: seq<FieldError>): seq<FieldError>
  {
    seq(|errs|, i requires 0 <= i < |errs| => FieldError([name] + errs[i].path, errs[i].cause))
  }

  /** The key strings of a map's entries, in entry order. */
  function KeyStrings(es: seq<Entry>): seq<string>
  {
    seq(|es|, i requires 0 <= i < |es| => es[i].key)
  }

  predicate HasKey(es: seq<Entry>, k: string)
  {
    exists j :: 0 <= j < |es| && es[j].key == k
  }

  /** The entry a key string ends up naming: keys are stored in entry order,
      so among entries with the same key string the last one wins. */
  function LastIndex(es: seq<Entry>, k: string): (i: nat)
    requires HasKey(es, k)
    ensures i < |es| && es[i].key == k
    ensures forall j :: i < j < |es| ==> es[j].key != k
  {
    if es[|es| - 1].key == k then |es| - 1
    else
      assert HasKey(es[..|es| - 1], k) by {
        var j :| 0 <= j < |es| && es[j].key == k;
        assert es[..|es| - 1][j].key == k;
      }
      LastIndex(es[..|es| - 1], k)
  }

  /** The key strings of a map in the order they are printed. */
  function SortedKeys(es: seq<Entry>): (ks: seq<string>)
    ensures |ks| == |es|
    ensures Sorted(ks) && multiset(ks) == multiset(KeyStrings(es))
  {
    SortStrings(KeyStrings(es))
  }

  lemma SortedKeyPresent(es: seq<Entry>, n: nat)
    requires n < |es|
    ensures HasKey(es, SortedKeys(es)[n])
  {
    var ks := KeyStrings(es);
    assert SortedKeys(es)[n] in multiset(ks);
    var j :| 0 <= j < |ks| && ks[j] == SortedKeys(es)[n];
  }

  /** The value printed for the n-th sorted key. */
  function SortedValue(es: seq<Entry>, n: nat): (v: Value)
    requires n < |es|
    ensures v in EntryValues(es)
  {
    SortedKeyPresent(es, n);
    es[LastIndex(es, SortedKeys(es)[n])].value
  }

  function EntryValues(es: seq<Entry>): set<Value>
  {
    set i | 0 <= i < |es| :: es[i].value
  }

  /** The value's type implements encoding.TextMarshaler (for a pointer:
      the pointer type, whose method set includes that of its element type). */
  predicate IsMarshaler(v: Value)
  {
    v.Marshaler? || (v.Ptr? && v.target.Some? && v.target.value.Marshaler?)
  }

  function MarshalerOf(v: Value): (m: Value)
    requires IsMarshaler(v)
    ensures m.Marshaler?
  {
    if v.Marshaler? then v else v.target.value
  }

  /** The value after pointer unwrapping. */
  function Deref(v: Value): (w: Value)
    ensures w == v || w < v
  {
    if v.Ptr? && v.target.Some? then v.target.value else v
  }

  /** fmt's rendering of a value that reaches the default branch. */
  function DefaultText(v: Value): string
    requires v.Scalar? || v.Ptr? || v.NilIface?
  {
    match v
    case Scalar(text, _) => text
    case Ptr(_, text) => text
    case NilIface => "<nil>"
  }

  /** encodeValue: marshalers first, then pointer unwrapping, then the kind switch. */
  function ValueSpec(c: Config, v: Value, level: nat, inList: bool): Outcome
    requires |c.listSymbols| > 0
    decreases v, 2, 0
  {
    if IsMarshaler(v) then
      var m := MarshalerOf(v);
      Outcome(m.text + "\n", if m.err.Some? then [FieldError([], MarshalFailed(m.err.value))] else [])
    else if v.Ptr? && v.target.None? then
      Outcome("", [])
    else
      KindSpec(c, Deref(v), v, level, inList)
  }

  /** The kind switch of encodeValue on the unwrapped value w of v. */
  function KindSpec(c: Config, w: Value, v: Value, level: nat, inList: bool): Outcome
    requires |c.listSymbols| > 0
    requires w == Deref(v) && !IsMarshaler(v) && !(v.Ptr? && v.target.None?)
    decreases w, 1, 0
  {
    match w
    case Struct(fields) =>
      var s := StructPrefix(c, w, level + 1, inList, |fields|);
      Outcome((if inList then "" else "\n") + s.out, s.errs)
    case List(elems, _) =>
      var s := ListPrefix(c, w, level + 1, |elems|);
      Outcome("\n" + s.out, s.errs)
    case Map(entries, _) =>
      var s := MapPrefix(c, w, level + 1, |entries|);
      Outcome("\n" + s.out, s.errs)
    case _ =>
      Outcome(" " + DefaultText(v) + "\n", [])
  }

  /** One iteration of the field loop of encodeStruct: what it writes, the
      new `inList` flag and the errors it adds. */
  function FieldDelta(c: Config, f: Field, level: nat, inList: bool): StructState
    requires |c.listSymbols| > 0
    decreases f, 0, 0
  {
    match PlanField(c, f)
    case Skip => StructState("", inList, [])
    case TagFailure(e) => StructState("", inList, [FieldError([], BadTag(e))])
    case Emit(name) =>
      var r := ValueSpec(c, f.value, level, false);
      StructState(Label(c, name, level, inList) + r.out, false, Prefixed(name, r.errs))
  }

  /** encodeStruct after its first n fields. */
  function StructPrefix(c: Config, v: Value, level: nat, inList: bool, n: nat): StructState
    requires |c.listSymbols| > 0
    requires v.Struct? && n <= |v.fields|
    decreases v, 0, n
  {
    if n == 0 then StructState("", inList, [])
    else
      var s := StructPrefix(c, v, level, inList, n - 1);
      var d := FieldDelta(c, v.fields[n - 1], level, s.inList);
      StructState(s.out + d.out, d.inList, s.errs + d.errs)
  }

  /** encodeSlice after its first n elements; it stops at the first failing element. */
  function ListPrefix(c: Config, v: Value, level: nat, n: nat): Outcome
    requires |c.listSymbols| > 0 && level >= 1
    requires v.List? && n <= |v.elems|
    decreases v, 0, n
  {
    if n == 0 then Outcome("", [])
    else
      var s := ListPrefix(c, v, level, n - 1);
      if s.errs != [] then s
      else
        var r := ValueSpec(c, v.elems[n - 1], level, true);
        Outcome(s.out + ItemHeading(c, level) + r.out, r.errs)
  }

  /** encodeMap after its first n sorted keys; it stops at the first failing value. */
  function MapPrefix(c: Config, v: Value, level: nat, n: nat): Outcome
    requires |c.listSymbols| > 0 && level >= 1
    requires v.Map? && n <= |v.entries|
    decreases v, 0, n
  {
    if n == 0 then Outcome("", [])
    else
      var s := MapPrefix(c, v, level, n - 1);
      if s.errs != [] then s
      else
        var key := SortedKeys(v.entries)[n - 1];
        var r := ValueSpec(c, SortedValue(v.entries, n - 1), level, true);
        Outcome(s.out + KeyHeading(c, level, key) + r.out, r.errs)
  }

  /** What Encode buffers for a root struct, and the errors it collects. */
  function Document(c: Config, root: Value): Outcome
    requires |c.listSymbols| > 0 && root.Struct?
  {
    var s := StructPrefix(c, root, 0, false, |root.fields|);
    Outcome(s.out, s.errs)
  }

  /** Once a slice element failed, no later element changes the outcome. */
  lemma {:induction false} ListPrefixStuck(c: Config, v: Value, level: nat, k: nat, n: nat)
    requires |c.listSymbols| > 0 && level >= 1 && v.List?
    requires k <= n <= |v.elems| && ListPrefix(c, v, level, k).errs != []
    ensures ListPrefix(c, v, level, n) == ListPrefix(c, v, level, k)
  {
    if n > k {
      ListPrefixStuck(c, v, level, k, n - 1);
    }
  }

  /** Once a map value failed, no later key changes the outcome (and with
      no later key there is nothing to change). */
  lemma {:induction false} MapPrefixStuck(c: Config, v: Value, level: nat, k: nat, n: nat)
    requires |c.listSymbols| > 0 && level >= 1 && v.Map?
    requires k <= n <= |v.entries| && (k == n || MapPrefix(c, v, level, k).errs != [])
    ensures MapPrefix(c, v, level, n) == MapPrefix(c, v, level, k)
  {
    if n > k {
      MapPrefixStuck(c, v, level, k, n - 1);
    }
  }

  /** One more key of encodeMap appends its heading and its value's text. */
  lemma MapPrefixStep(c: Config, v: Value, level: nat, n: nat, before: string)
    requires |c.listSymbols| > 0 && level >= 1 && v.Map?
    requires n < |v.entries| && MapPrefix(c, v, level, n).errs == []
    ensures var r := ValueSpec(c, SortedValue(v.entries, n), level, true);
      && before + MapPrefix(c, v, level, n).out + (KeyHeading(c, level, SortedKeys(v.entries)[n]) + r.out)
         == before + MapPrefix(c, v, level, n + 1).out
      && MapPrefix(c, v, level, n + 1).errs == r.errs
  {
    var s := MapPrefix(c, v, level, n);
    var h := KeyHeading(c, level, SortedKeys(v.entries)[n]);
    var r := ValueSpec(c, SortedValue(v.entries, n), level, true);
    AppendAssoc(before, s.out, h + r.out);
    AppendAssoc(s.out, h, r.out);
  }

  /** Concatenation is associative (stated once, so the solver need not
      rediscover it inside larger proofs). */
  lemma AppendAssoc<T>(a: seq<T>, b: seq<T>, c: seq<T>)
    ensures a + (b + c) == a + b + c
  {
  }
}

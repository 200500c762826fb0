/**
 * encoder.go: the Encoder object, its recursive encode methods writing into
 * the flushable buffer, the all-or-nothing Encode, and NewEncoder.
 *
 * Every encode method is proved to append exactly the text the matching
 * function of the Render module describes and to return its errors.
 */
module Encoding {
  import opened Wrappers
  import opened Values
  import opened Tags
  import opened Util
  import opened Options
  import opened Sorting
  import opened Render
  import opened Buffer

  /** The error Encode returns: the collected field errors, or the destination's. */
  datatype EncodeError = FieldErrors(entries: seq<FieldError>) | DestinationError

  class Encoder {
    var stream: FlushableBuffer
    var tagName: string
    var indent: nat
    var listSymbols: seq<string>

    /** `&Encoder{stream: ...}`: every setting still at Go's zero value. */
    constructor (stream: FlushableBuffer)
      ensures this.stream == stream && Cfg() == ZeroConfig
    {
      this.stream := stream;
      tagName := "";
      indent := 0;
      listSymbols := [];
    }

    function Cfg(): Config
      reads this
    {
      Config(tagName, indent, listSymbols)
    }

    /** A built encoder: valid settings and nothing left in the buffer between calls. */
    ghost predicate Valid()
      reads this, stream
    {
      ValidConfig(Cfg()) && stream.buf == []
    }

    /** Running one option closure on the encoder. */
    method Apply(opt: EncoderOption) returns (err: Option<ConfigError>)
      modifies this
      ensures (Cfg(), err) == ApplyOption(old(Cfg()), opt)
      ensures stream == old(stream)
    {
      err := None;
      match opt
      case OptionTagName(name) =>
        if name == "" {
          err := Some(ErrInvalidTagName);
        } else {
          tagName := name;
        }
      case OptionListSymbols(symbols) =>
        if |symbols| == 0 {
          err := Some(ErrListSymbolsEmpty);
        } else {
          listSymbols := symbols;
        }
      case OptionIndent(n) =>
        indent := n;
    }

    /** Encode: buffer the whole document, then either discard it or flush it once. */
    method Encode(root: Value) returns (err: Option<EncodeError>)
      requires Valid() && root.Struct?
      modifies stream
      ensures Valid() && stream.failing == old(stream.failing)
      ensures var d := Document(Cfg(), root);
        if d.errs != [] then err == Some(FieldErrors(d.errs)) && stream.dest == old(stream.dest)
        else if stream.failing then err == Some(DestinationError) && stream.dest == old(stream.dest)
        else err == None && stream.dest == old(stream.dest) + d.out
    {
      var errs := EncodeStruct(root, 0, false);
      if errs != [] {
        stream.Reset();
        return Some(FieldErrors(errs));
      }
      var _, failed := stream.Flush();
      stream.Reset();
      err := if failed then Some(DestinationError) else None;
    }

    method EncodeStruct(v: Value, level: nat, inList: bool) returns (errs: seq<FieldError>)
      requires |listSymbols| > 0 && v.Struct?
      modifies stream`buf
      ensures var s := StructPrefix(Cfg(), v, level, inList, |v.fields|);
        stream.buf == old(stream.buf) + s.out && errs == s.errs
      decreases v, 0
    {
      var first := inList;
      errs := [];
      for i := 0 to |v.fields|
        invariant var s := StructPrefix(Cfg(), v, level, inList, i);
          stream.buf == old(stream.buf) + s.out && errs == s.errs && first == s.inList
      {
        var fieldErrs;
        first, fieldErrs := EncodeField(v.fields[i], level, first);
        errs := errs + fieldErrs;
        AppendAssoc(old(stream.buf), StructPrefix(Cfg(), v, level, inList, i).out,
          FieldDelta(Cfg(), v.fields[i], level, StructPrefix(Cfg(), v, level, inList, i).inList).out);
      }
    }

    /** The body of the field loop of encodeStruct, for one field. */
    method EncodeField(f: Field, level: nat, inList: bool) returns (stillInList: bool, errs: seq<FieldError>)
      requires |listSymbols| > 0
      modifies stream`buf
      ensures var d := FieldDelta(Cfg(), f, level, inList);
        stream.buf == old(stream.buf) + d.out && stillInList == d.inList && errs == d.errs
      decreases f, 0
    {
      stillInList, errs := inList, [];
      if f.anonymous {
        return;
      }
      if !IsExported(f.name) {
        return;
      }
      var p := ParseTagFromStructField(f.name, f.tags, tagName);
      if p.err.Some? {
        errs := [FieldError([], BadTag(p.err.value))];
        return;
      }
      if f.value.NilIface? || p.name == "-" || (p.omitEmpty && IsNilOrEmpty(f.value)) {
        return;
      }
      var heading;
      if inList {
        heading := " " + p.name + ":";
        stillInList := false;
      } else {
        heading := Spaces(indent * level) + p.name + ":";
      }
      stream.Write(heading);
      ghost var r := ValueSpec(Cfg(), f.value, level, false);
      var fieldErrs := EncodeValue(f.value, level, false);
      if fieldErrs != [] {
        errs := Prefixed(p.name, fieldErrs);
      }
      AppendAssoc(old(stream.buf), heading, r.out);
    }

    method EncodeSlice(v: Value, level: nat) returns (errs: seq<FieldError>)
      requires |listSymbols| > 0 && level >= 1 && v.List?
      modifies stream`buf
      ensures var s := ListPrefix(Cfg(), v, level, |v.elems|);
        stream.buf == old(stream.buf) + s.out && errs == s.errs
      decreases v, 0
    {
      var listSymbol := listSymbols[(level - 1) % |listSymbols|];
      var i := 0;
      errs := [];
      while i < |v.elems| && errs == []
        invariant i <= |v.elems|
        invariant var s := ListPrefix(Cfg(), v, level, i);
          stream.buf == old(stream.buf) + s.out && errs == s.errs
      {
        ghost var s := ListPrefix(Cfg(), v, level, i);
        var heading := Spaces(indent * level) + listSymbol;
        assert heading == ItemHeading(Cfg(), level);
        stream.Write(heading);
        errs := EncodeValue(v.elems[i], level, true);
        AppendAssoc(old(stream.buf), s.out, heading);
        AppendAssoc(old(stream.buf), s.out + heading, ValueSpec(Cfg(), v.elems[i], level, true).out);
        i := i + 1;
      }
      if errs != [] {
        ListPrefixStuck(Cfg(), v, level, i, |v.elems|);
      }
    }

    method EncodeMap(v: Value, level: nat) returns (errs: seq<FieldError>)
      requires |listSymbols| > 0 && level >= 1 && v.Map?
      modifies stream`buf
      ensures var s := MapPrefix(Cfg(), v, level, |v.entries|);
        stream.buf == old(stream.buf) + s.out && errs == s.errs
      decreases v, 1
    {
      var listSymbol := Bullet(Cfg(), level);
      var keyIndex, keyStrings := IndexMapKeys(v.entries);
      var sorted := SortStrings(keyStrings);
      errs := EncodeSortedKeys(v, level, listSymbol, keyIndex, sorted, Cfg());
    }

    /** The second loop of encodeMap: the sorted keys one by one, up to the
        first error. */
    method EncodeSortedKeys(v: Value, level: nat, listSymbol: string, keyIndex: map<string, nat>,
                            sorted: seq<string>, ghost c: Config) returns (errs: seq<FieldError>)
      requires c == Cfg() && |c.listSymbols| > 0 && level >= 1 && listSymbol == Bullet(c, level)
      requires v.Map? && IndexesKeys(keyIndex, v.entries) && sorted == SortedKeys(v.entries)
      modifies stream`buf
      ensures var s := MapPrefix(c, v, level, |v.entries|);
        stream.buf == old(stream.buf) + s.out && errs == s.errs
      decreases v, 0, 1
    {
      var n := 0;
      errs := [];
      while n < |sorted| && errs == []
        invariant c == Cfg() && n <= |v.entries|
        invariant var s := MapPrefix(c, v, level, n);
          stream.buf == old(stream.buf) + s.out && errs == s.errs
      {
        errs := EncodeMapKey(v, level, listSymbol, keyIndex, sorted, n, c, old(stream.buf));
        n := n + 1;
      }
      MapPrefixStuck(c, v, level, n, |v.entries|);
    }

    /** One iteration of the key loop of encodeMap: look the n-th sorted key
        string up, write its heading and encode its value. */
    method EncodeMapKey(v: Value, level: nat, listSymbol: string, keyIndex: map<string, nat>,
                        sorted: seq<string>, n: nat, ghost c: Config, ghost before: string)
      returns (errs: seq<FieldError>)
      requires c == Cfg() && |c.listSymbols| > 0 && level >= 1 && listSymbol == Bullet(c, level)
      requires v.Map? && n < |v.entries| && IndexesKeys(keyIndex, v.entries)
      requires sorted == SortedKeys(v.entries)
      requires var s := MapPrefix(c, v, level, n); s.errs == [] && stream.buf == before + s.out
      modifies stream`buf
      ensures var s := MapPrefix(c, v, level, n + 1);
        stream.buf == before + s.out && errs == s.errs
      decreases v, 0, 0
    {
      var keyString := sorted[n];
      LookupSortedKey(v.entries, keyIndex, n);
      var entry := v.entries[keyIndex[keyString]];
      var heading := Spaces(indent * level) + listSymbol + " " + keyString + ":";
      assert heading == KeyHeading(c, level, keyString);
      stream.Write(heading);
      errs := EncodeValue(entry.value, level, true);
      MapPrefixStep(c, v, level, n, before);
      AppendAssoc(old(stream.buf), heading, ValueSpec(c, entry.value, level, true).out);
    }

    method EncodeValue(v: Value, level: nat, inList: bool) returns (errs: seq<FieldError>)
      requires |listSymbols| > 0
      modifies stream`buf
      ensures var r := ValueSpec(Cfg(), v, level, inList);
        stream.buf == old(stream.buf) + r.out && errs == r.errs
      decreases v, 3
    {
      if IsMarshaler(v) {
        var m := MarshalerOf(v);
        stream.Write(m.text + "\n");
        errs := if m.err.Some? then [FieldError([], MarshalFailed(m.err.value))] else [];
        return;
      }
      var w := v;
      if v.Ptr? && v.target.Some? {
        w := v.target.value;
      } else if v.Ptr? {
        return [];
      }
      errs := EncodeKind(w, v, level, inList);
    }

    /** The kind switch of encodeValue on the unwrapped value w of v. */
    method EncodeKind(w: Value, v: Value, level: nat, inList: bool) returns (errs: seq<FieldError>)
      requires |listSymbols| > 0
      requires w == Deref(v) && !IsMarshaler(v) && !(v.Ptr? && v.target.None?)
      modifies stream`buf
      ensures var r := KindSpec(Cfg(), w, v, level, inList);
        stream.buf == old(stream.buf) + r.out && errs == r.errs
      decreases w, 2
    {
      ghost var c := Cfg();
      if w.Struct? {
        ghost var s := StructPrefix(c, w, level + 1, inList, |w.fields|);
        assert KindSpec(c, w, v, level, inList) == Outcome((if inList then "" else "\n") + s.out, s.errs);
        if !inList {
          stream.Write("\n");
        }
        errs := EncodeStruct(w, level + 1, inList);
        AppendAssoc(old(stream.buf), if inList then "" else "\n", s.out);
      } else if w.List? {
        ghost var s := ListPrefix(c, w, level + 1, |w.elems|);
        assert KindSpec(c, w, v, level, inList) == Outcome("\n" + s.out, s.errs);
        stream.Write("\n");
        errs := EncodeSlice(w, level + 1);
        AppendAssoc(old(stream.buf), "\n", s.out);
      } else if w.Map? {
        ghost var s := MapPrefix(c, w, level + 1, |w.entries|);
        assert KindSpec(c, w, v, level, inList) == Outcome("\n" + s.out, s.errs);
        stream.Write("\n");
        errs := EncodeMap(w, level + 1);
        AppendAssoc(old(stream.buf), "\n", s.out);
      } else {
        stream.Write(" " + DefaultText(v) + "\n");
        errs := [];
      }
    }
  }

  /** keyIndex maps exactly the key strings of es, each to its last entry. */
  ghost predicate IndexesKeys(keyIndex: map<string, nat>, es: seq<Entry>)
  {
    && (forall k :: k in keyIndex <==> HasKey(es, k))
    && (forall k :: k in keyIndex ==> HasKey(es, k) && keyIndex[k] == LastIndex(es, k))
  }

  /** The n-th sorted key string looks up the entry encodeMap prints for it. */
  lemma LookupSortedKey(es: seq<Entry>, keyIndex: map<string, nat>, n: nat)
    requires IndexesKeys(keyIndex, es) && n < |es|
    ensures SortedKeys(es)[n] in keyIndex
    ensures keyIndex[SortedKeys(es)[n]] < |es|
    ensures es[keyIndex[SortedKeys(es)[n]]].value == SortedValue(es, n)
  {
    SortedKeyPresent(es, n);
  }

  /** The first loop of encodeMap: each key's string, in map order, and the
      index of the entry its string looks up (the last one with that string). */
  method IndexMapKeys(es: seq<Entry>) returns (keyIndex: map<string, nat>, keyStrings: seq<string>)
    ensures keyStrings == KeyStrings(es)
    ensures IndexesKeys(keyIndex, es)
  {
    keyIndex, keyStrings := map[], [];
    for i := 0 to |es|
      invariant keyStrings == KeyStrings(es[..i])
      invariant forall k :: k in keyIndex <==> HasKey(es[..i], k)
      invariant forall k :: k in keyIndex ==> HasKey(es[..i], k) && keyIndex[k] == LastIndex(es[..i], k)
    {
      assert es[..i + 1][..i] == es[..i];
      keyIndex := keyIndex[es[i].key := i];
      keyStrings := keyStrings + [es[i].key];
    }
    assert es[..|es|] == es;
  }

  /** NewEncoder: the defaults, then the caller's options, in order. */
  method NewEncoder(dest: string, failing: bool, opts: seq<EncoderOption>)
    returns (enc: Encoder?, errs: seq<ConfigError>)
    ensures errs == ApplyOptions(ZeroConfig, DefaultOptions + opts).1
    ensures enc == null <==> errs != []
    ensures enc != null ==>
      fresh(enc) && fresh(enc.stream) && enc.Valid()
      && enc.Cfg() == ApplyOptions(ZeroConfig, DefaultOptions + opts).0
      && enc.stream.dest == dest && enc.stream.failing == failing
  {
    var stream := new FlushableBuffer(dest, failing);
    var e := new Encoder(stream);
    var all := DefaultOptions + opts;
    errs := [];
    for i := 0 to |all|
      invariant e.stream == stream && stream.buf == [] && stream.dest == dest && stream.failing == failing
      invariant (e.Cfg(), errs) == ApplyOptions(ZeroConfig, all[..i])
    {
      ghost var prev := ApplyOptions(ZeroConfig, all[..i]);
      assert all[..i + 1][..i] == all[..i];
      assert ApplyOptions(ZeroConfig, all[..i + 1]).1
        == prev.1 + (if ApplyOption(prev.0, all[i]).1.Some? then [ApplyOption(prev.0, all[i]).1.value] else []);
      var err := e.Apply(all[i]);
      assert (e.Cfg(), err) == ApplyOption(prev.0, all[i]);
      if err.Some? {
        errs := errs + [err.value];
      }
      assert e.Cfg() == ApplyOptions(ZeroConfig, all[..i + 1]).0;
      assert errs == ApplyOptions(ZeroConfig, all[..i + 1]).1;
    }
    assert all[..|all|] == all;
    if errs != [] {
      enc := null;
    } else {
      ConfiguredEncoderIsValid(opts);
      enc := e;
    }
  }
}

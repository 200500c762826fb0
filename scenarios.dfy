/**
 * The documented examples of the encoder and its options, evaluated on the
 * model.
 */
module Scenarios {
  import opened Wrappers
  import opened Values
  import opened Util
  import opened Tags
  import opened Options
  import opened Sorting
  import opened Render
  import RenderProps

  /** The settings NewEncoder builds without user options. */
  const Defaults := Config(DefaultTagName, DefaultIndent, [DefaultListSymbol])

  /** A field without a struct tag. */
  function Untagged(name: string, v: Value): Field
  {
    Field(name, false, map[], v)
  }

  /** A field with a `human:"<tag>"` struct tag. */
  function Tagged(name: string, tag: string, v: Value): Field
  {
    Field(name, false, map[DefaultTagName := tag], v)
  }

  /** The options of the CustomOptionsNoError case: symbols "+" and "-", tag name "test", indent 4. */
  const CustomOptions := [OptionListSymbols(["+", "-"]), OptionTagName("test"), OptionIndent(4)]

  lemma CustomSettings()
    ensures ApplyOptions(Defaults, CustomOptions).0 == Config("test", 4, ["+", "-"])
  {
    var u1 := CustomOptions[..1];
    var u2 := CustomOptions[..2];
    assert u1[..0] == [] && u2[..1] == u1 && CustomOptions[..2] == u2;
    assert ApplyOptions(Defaults, u1).0 == Config(DefaultTagName, DefaultIndent, ["+", "-"]);
    assert ApplyOptions(Defaults, u2).0 == Config("test", DefaultIndent, ["+", "-"]);
  }

  /** NewEncoder with CustomOptions succeeds with exactly those settings. */
  lemma CustomOptionsNoError()
    ensures ApplyOptions(ZeroConfig, DefaultOptions + CustomOptions) == (Config("test", 4, ["+", "-"]), [])
  {
    DefaultsOnly();
    ApplyOptionsConcat(ZeroConfig, DefaultOptions, CustomOptions);
    CustomSettings();
    CustomAccepted();
  }

  /** None of CustomOptions refuses its argument. */
  lemma CustomAccepted()
    ensures ApplyOptions(Defaults, CustomOptions).1 == []
  {
    ApplyOptionsErrors(Defaults, CustomOptions);
  }

  /** NewEncoder with no symbols and an empty tag name: both errors, in option order. */
  lemma CustomOptionsError()
    ensures ApplyOptions(ZeroConfig, DefaultOptions + [OptionListSymbols([]), OptionTagName("")]).1
         == [ErrListSymbolsEmpty, ErrInvalidTagName]
  {
    var all := DefaultOptions + [OptionListSymbols([]), OptionTagName("")];
    ApplyOptionsErrors(ZeroConfig, all);
    RejectedErrorsAppend(DefaultOptions + [OptionListSymbols([])], OptionTagName(""));
    RejectedErrorsAppend(DefaultOptions, OptionListSymbols([]));
    assert all == DefaultOptions + [OptionListSymbols([])] + [OptionTagName("")];
    assert RejectedErrors(DefaultOptions) == [] by {
      ApplyOptionsErrors(ZeroConfig, DefaultOptions);
      DefaultsOnly();
    }
  }

  /** ParseTag("test") gives the name "test", no omitempty, no error. */
  lemma ParseSimpleTag()
    ensures ParseTag("test") == ParsedTag("test", false, None)
  {
    ParseFormatTag("test", false);
  }

  /** ParseTag("&") fails with an InvalidTag error carrying "&". */
  lemma ParseBadTag()
    ensures ParseTag("&").err == Some(InvalidTag("&"))
    ensures ParseTag("&").err.value.Tag() == "&"
  {
    assert !IsNameChar(ParseTag("&").name[0]);
  }

  /** The message and the tag of newErrorInvalidTag("testing error"). */
  lemma TestingErrorMessage()
    ensures NewErrorInvalidTag("testing error").invalid.Error() == "Invalid tag: 'testing error'"
    ensures IsInvalidTag(NewErrorInvalidTag("testing error")) == (Some(InvalidTag("testing error")), true)
  {
    assert InvalidTagPrefix + "testing error" + "'" == "Invalid tag: 'testing error'";
  }

  /** With the symbols "+" and "-", nested lists alternate between them. */
  lemma AlternatingBullets()
    ensures Bullet(Config("human", 2, ["+", "-"]), 1) == "+"
    ensures Bullet(Config("human", 2, ["+", "-"]), 2) == "-"
    ensures Bullet(Config("human", 2, ["+", "-"]), 3) == "+"
  {
  }

  /** An exported field without a tag is printed under its Go name. */
  lemma UntaggedPrinted(c: Config, name: string, v: Value)
    requires IsExported(name) && !v.NilIface?
    ensures PlanField(c, Untagged(name, v)) == Emit(name)
  {
    EmptyTagUsesGoName(name, map[], c.tagName);
  }

  /** A field tagged with a valid name is printed under that name. */
  lemma RenamedPrinted(c: Config, name: string, tag: string, v: Value)
    requires c.tagName == DefaultTagName && IsExported(name) && !v.NilIface?
    requires tag != "" && tag != "-" && forall i :: 0 <= i < |tag| ==> IsNameChar(tag[i])
    ensures PlanField(c, Tagged(name, tag, v)) == Emit(tag)
  {
    ParseFormatTag(tag, false);
  }

  /** A field tagged `-` is never printed. */
  lemma IgnoredSkipped(c: Config, name: string, v: Value)
    requires c.tagName == DefaultTagName
    ensures PlanField(c, Tagged(name, "-", v)) == Skip
  {
  }

  /** A field tagged `,omitempty` holding an empty value is not printed. */
  lemma EmptyOmitted(c: Config, name: string, v: Value)
    requires c.tagName == DefaultTagName && IsNilOrEmpty(v)
    ensures PlanField(c, Tagged(name, OmitEmptySuffix, v)) == Skip
  {
    EmptyTagUsesGoName(name, map[DefaultTagName := OmitEmptySuffix], c.tagName);
  }

  /** A printed field holding a plain value is one line: its label, a space, the text. */
  lemma ScalarLine(c: Config, f: Field, level: nat, inList: bool, name: string)
    requires |c.listSymbols| > 0 && PlanField(c, f) == Emit(name) && f.value.Scalar?
    ensures FieldDelta(c, f, level, inList)
         == StructState(Label(c, name, level, inList) + (" " + f.value.text + "\n"), false, [])
  {
    assert ValueSpec(c, f.value, level, false) == KindSpec(c, f.value, f.value, level, false);
  }

  /** SimpleChild{Name: "theChild", Property1: 3, Property2: 0}. */
  const OmitEmptyChild := Struct([
    Untagged("Name", Scalar("theChild", false)),
    Tagged("Property1", "-", Scalar("3", false)),
    Tagged("Property2", OmitEmptySuffix, Scalar("0", true))])

  /** A skipped field leaves the struct's output, list flag and errors as they were. */
  lemma SkippedField(c: Config, v: Value, level: nat, inList: bool, n: nat)
    requires |c.listSymbols| > 0 && v.Struct? && 0 < n <= |v.fields|
    requires PlanField(c, v.fields[n - 1]) == Skip
    ensures StructPrefix(c, v, level, inList, n) == StructPrefix(c, v, level, inList, n - 1)
  {
  }

  /*
   * The expected lines below are written as the pieces the encoder prints
   * them from: indentation, name, colon, then the value.
   */

  /** `  Name: theChild` */
  const NameText := "  " + "Name" + ":" + (" " + "theChild" + "\n")

  /** `Var1: v1` */
  const Var1Text := "Var1" + ":" + (" " + "v1" + "\n")

  /** `variable_2: 2` */
  const Var2Text := "variable_2" + ":" + (" " + "2" + "\n")

  /** `Child:` followed by the lines of the nested struct. */
  const ChildText := "Child" + ":" + ("\n" + NameText)

  /** The Name line of SimpleChild, one level down. */
  lemma ChildNameLine()
    ensures StructPrefix(Defaults, OmitEmptyChild, 1, false, 1) == StructState(NameText, false, [])
  {
    var f := OmitEmptyChild.fields[0];
    UntaggedPrinted(Defaults, "Name", f.value);
    ScalarLine(Defaults, f, 1, false, "Name");
    assert Indent(Defaults, 1) == "  ";
  }

  /** Nested one level down, only the Name line of SimpleChild is printed. */
  lemma OmitEmptyChildText()
    ensures StructPrefix(Defaults, OmitEmptyChild, 1, false, 3) == StructState(NameText, false, [])
  {
    ChildNameLine();
    IgnoredSkipped(Defaults, "Property1", Scalar("3", false));
    SkippedField(Defaults, OmitEmptyChild, 1, false, 2);
    EmptyOmitted(Defaults, "Property2", Scalar("0", true));
    SkippedField(Defaults, OmitEmptyChild, 1, false, 3);
  }

  /** A printed field holding a struct: its label, a line break, then the fields one level down. */
  lemma StructLine(c: Config, f: Field, level: nat, name: string)
    requires |c.listSymbols| > 0 && PlanField(c, f) == Emit(name) && f.value.Struct?
    ensures var s := StructPrefix(c, f.value, level + 1, false, |f.value.fields|);
      FieldDelta(c, f, level, false) == StructState(Label(c, name, level, false) + ("\n" + s.out), false, Prefixed(name, s.errs))
  {
    assert ValueSpec(c, f.value, level, false) == KindSpec(c, f.value, f.value, level, false);
  }

  /** Appending a printed field without errors to a struct printed so far without errors. */
  lemma CleanStep(c: Config, v: Value, level: nat, n: nat, before: string, line: string)
    requires |c.listSymbols| > 0 && v.Struct? && 0 < n <= |v.fields|
    requires StructPrefix(c, v, level, false, n - 1) == StructState(before, false, [])
    requires FieldDelta(c, v.fields[n - 1], level, false) == StructState(line, false, [])
    ensures StructPrefix(c, v, level, false, n) == StructState(before + line, false, [])
  {
  }

  /** A field renamed by its tag and holding a plain value: one line under the new name. */
  lemma RenamedScalarLine(c: Config, name: string, tag: string, text: string, isZero: bool, level: nat)
    requires |c.listSymbols| > 0 && c.tagName == DefaultTagName && IsExported(name)
    requires tag != "" && tag != "-" && forall i :: 0 <= i < |tag| ==> IsNameChar(tag[i])
    ensures FieldDelta(c, Tagged(name, tag, Scalar(text, isZero)), level, false)
         == StructState(Indent(c, level) + tag + ":" + (" " + text + "\n"), false, [])
  {
    RenamedPrinted(c, name, tag, Scalar(text, isZero));
    ScalarLine(c, Tagged(name, tag, Scalar(text, isZero)), level, false, tag);
  }

  /** SimpleTest{Var1: "v1", Var2: 2, Child: SimpleChild{"theChild", 3, 0}}. */
  const OmitEmptyRoot := Struct([
    Untagged("Var1", Scalar("v1", false)),
    Tagged("Var2", "variable_2", Scalar("2", false)),
    Untagged("Child", OmitEmptyChild)])

  lemma Var1Line()
    ensures FieldDelta(Defaults, OmitEmptyRoot.fields[0], 0, false) == StructState(Var1Text, false, [])
  {
    var f := OmitEmptyRoot.fields[0];
    UntaggedPrinted(Defaults, "Var1", f.value);
    ScalarLine(Defaults, f, 0, false, "Var1");
    assert Indent(Defaults, 0) == "";
  }

  lemma Var2Line()
    ensures FieldDelta(Defaults, OmitEmptyRoot.fields[1], 0, false) == StructState(Var2Text, false, [])
  {
    assert forall i :: 0 <= i < |"variable_2"| ==> IsNameChar("variable_2"[i]);
    RenamedScalarLine(Defaults, "Var2", "variable_2", "2", false, 0);
    assert Indent(Defaults, 0) == "";
  }

  /** A printed top-level struct field whose fields print as `text` without errors. */
  lemma CleanStructField(c: Config, f: Field, name: string, text: string)
    requires |c.listSymbols| > 0 && PlanField(c, f) == Emit(name) && f.value.Struct?
    requires StructPrefix(c, f.value, 1, false, |f.value.fields|) == StructState(text, false, [])
    ensures FieldDelta(c, f, 0, false) == StructState(name + ":" + ("\n" + text), false, [])
  {
    StructLine(c, f, 0, name);
    TopLabel(c, name);
  }

  lemma ChildLines()
    ensures FieldDelta(Defaults, OmitEmptyRoot.fields[2], 0, false) == StructState(ChildText, false, [])
  {
    UntaggedPrinted(Defaults, "Child", OmitEmptyChild);
    OmitEmptyChildText();
    CleanStructField(Defaults, OmitEmptyRoot.fields[2], "Child", NameText);
  }

  /**
   * The documented output of the simpleOmitEmpty example:
   * `Var1: v1`, `variable_2: 2`, `Child:`, `  Name: theChild`; Property1
   * is ignored and the empty Property2 omitted.
   */
  lemma SimpleOmitEmpty()
    ensures Document(Defaults, OmitEmptyRoot) == Outcome(Var1Text + Var2Text + ChildText, [])
  {
    Var1Line();
    CleanStep(Defaults, OmitEmptyRoot, 0, 1, "", Var1Text);
    Var2Line();
    CleanStep(Defaults, OmitEmptyRoot, 0, 2, Var1Text, Var2Text);
    ChildLines();
    CleanStep(Defaults, OmitEmptyRoot, 0, 3, Var1Text + Var2Text, ChildText);
  }

  /** `&§/$` is not a valid tag name, so the field fails with that tag. */
  lemma TagFailPlan(c: Config, v: Value)
    requires c.tagName == DefaultTagName
    ensures PlanField(c, Tagged("Test", "&§/$", v)) == TagFailure(InvalidTag("&§/$"))
  {
    var t := "&§/$";
    var r := ParseTag(t);
    assert !HasSuffix(t, OmitEmptySuffix);
    assert r.name == t;
    assert !IsNameChar(r.name[0]);
  }

  /** TagFailTest{Test: 1}: nothing is printed and the one tag error is reported. */
  lemma TagFailDocument()
    ensures Document(Defaults, Struct([Tagged("Test", "&§/$", Scalar("1", false))]))
         == Outcome("", [FieldError([], BadTag(InvalidTag("&§/$")))])
  {
    var root := Struct([Tagged("Test", "&§/$", Scalar("1", false))]);
    TagFailPlan(Defaults, Scalar("1", false));
    assert FieldDelta(Defaults, root.fields[0], 0, false)
        == StructState("", false, [FieldError([], BadTag(InvalidTag("&§/$")))]);
    assert StructPrefix(Defaults, root, 0, false, 0) == StructState("", false, []);
  }

  /** A printed field holding a TextMarshaler: its label, then the marshaled text with no space. */
  lemma MarshalerLine(c: Config, f: Field, level: nat, name: string)
    requires |c.listSymbols| > 0 && PlanField(c, f) == Emit(name) && f.value.Marshaler? && f.value.err.None?
    ensures FieldDelta(c, f, level, false) == StructState(Label(c, name, level, false) + (f.value.text + "\n"), false, [])
  {
  }

  /** TextMarshalerTest{Ip: net.ParseIP("127.0.0.1")}, whose marshaled bytes
      fmt prints as a list of numbers. */
  const MarshalerRoot := Struct([Untagged("Ip", Marshaler("[49 50 55 46 48 46 48 46 49]", None, false))])

  /** The documented output of the textMarshaler example: `Ip:[49 50 55 46 48 46 48 46 49]`. */
  lemma TextMarshalerDocument()
    ensures Document(Defaults, MarshalerRoot) == Outcome("Ip" + ":" + ("[49 50 55 46 48 46 48 46 49]" + "\n"), [])
  {
    var f := MarshalerRoot.fields[0];
    UntaggedPrinted(Defaults, "Ip", f.value);
    MarshalerLine(Defaults, f, 0, "Ip");
    assert Indent(Defaults, 0) == "";
    CleanStep(Defaults, MarshalerRoot, 0, 1, "", "Ip" + ":" + ("[49 50 55 46 48 46 48 46 49]" + "\n"));
  }

  /** `Text: test` */
  const TextLine := "Text" + ":" + (" " + "test" + "\n")

  /** A struct whose first field is skipped and whose second prints `Text: test`. */
  lemma OnlyTextPrinted(first: Field)
    requires PlanField(Defaults, first) == Skip
    ensures Document(Defaults, Struct([first, Untagged("Text", Scalar("test", false))])) == Outcome(TextLine, [])
  {
    var root := Struct([first, Untagged("Text", Scalar("test", false))]);
    SkippedField(Defaults, root, 0, false, 1);
    UntaggedPrinted(Defaults, "Text", root.fields[1].value);
    ScalarLine(Defaults, root.fields[1], 0, false, "Text");
    assert Indent(Defaults, 0) == "";
    CleanStep(Defaults, root, 0, 2, "", TextLine);
  }

  /** AnonymousFieldTest{Text: "test"}: the embedded int is skipped, not flattened. */
  lemma AnonymousFieldDocument()
    ensures Document(Defaults, Struct([Field("int", true, map[], Scalar("0", true)), Untagged("Text", Scalar("test", false))]))
         == Outcome(TextLine, [])
  {
    OnlyTextPrinted(Field("int", true, map[], Scalar("0", true)));
  }

  /** UnexportedFieldTest{Text: "test"}: the unexported field is skipped. */
  lemma UnexportedFieldDocument()
    ensures Document(Defaults, Struct([Untagged("unexported", Scalar("0", true)), Untagged("Text", Scalar("test", false))]))
         == Outcome(TextLine, [])
  {
    OnlyTextPrinted(Untagged("unexported", Scalar("0", true)));
  }

  /** A printed field holding a nil pointer: its label and nothing after it, not even a line break. */
  lemma NilPointerLine(c: Config, f: Field, level: nat, inList: bool, name: string)
    requires |c.listSymbols| > 0 && PlanField(c, f) == Emit(name) && f.value.Ptr? && f.value.target.None?
    ensures FieldDelta(c, f, level, inList) == StructState(Label(c, name, level, inList), false, [])
  {
    assert Label(c, name, level, inList) + "" == Label(c, name, level, inList);
  }

  /** A nil pointer field followed by `Text`. */
  const NilPointerRoot := Struct([Untagged("Next", Ptr(None, "<nil>")), Untagged("Text", Scalar("test", false))])

  /** The nil pointer's label runs into the next one: the single line `Next:Text: test`. */
  lemma NilPointerDocument()
    ensures Document(Defaults, NilPointerRoot) == Outcome("Next" + ":" + TextLine, [])
  {
    var f := NilPointerRoot.fields[0];
    UntaggedPrinted(Defaults, "Next", f.value);
    NilPointerLine(Defaults, f, 0, false, "Next");
    TopLabel(Defaults, "Next");
    CleanStep(Defaults, NilPointerRoot, 0, 1, "", "Next" + ":");
    UntaggedPrinted(Defaults, "Text", NilPointerRoot.fields[1].value);
    ScalarLine(Defaults, NilPointerRoot.fields[1], 0, false, "Text");
    TopLabel(Defaults, "Text");
    CleanStep(Defaults, NilPointerRoot, 0, 2, "Next" + ":", TextLine);
  }

  /** A printed field holding a slice: its label, a line break, then the elements one level down. */
  lemma ListLine(c: Config, f: Field, level: nat, name: string)
    requires |c.listSymbols| > 0 && PlanField(c, f) == Emit(name) && f.value.List?
    ensures var s := ListPrefix(c, f.value, level + 1, |f.value.elems|);
      FieldDelta(c, f, level, false) == StructState(Label(c, name, level, false) + ("\n" + s.out), false, Prefixed(name, s.errs))
  {
    assert ValueSpec(c, f.value, level, false) == KindSpec(c, f.value, f.value, level, false);
  }

  /** A plain slice element: a space, its text and a newline after the bullet. */
  lemma ScalarItem(c: Config, text: string, isZero: bool, level: nat)
    requires |c.listSymbols| > 0
    ensures ValueSpec(c, Scalar(text, isZero), level, true) == Outcome(" " + text + "\n", [])
  {
    assert ValueSpec(c, Scalar(text, isZero), level, true) == KindSpec(c, Scalar(text, isZero), Scalar(text, isZero), level, true);
  }

  /** A struct slice element: no line break, and its fields one level down, the first on the bullet's line. */
  lemma ListedStruct(c: Config, v: Value, level: nat)
    requires |c.listSymbols| > 0 && v.Struct?
    ensures var s := StructPrefix(c, v, level + 1, true, |v.fields|);
      ValueSpec(c, v, level, true) == Outcome(s.out, s.errs)
  {
    assert ValueSpec(c, v, level, true) == KindSpec(c, v, v, level, true);
  }

  /** The first element of a slice, printed without errors. */
  lemma FirstItem(c: Config, v: Value, level: nat, text: string)
    requires |c.listSymbols| > 0 && level >= 1 && v.List? && 0 < |v.elems|
    requires ValueSpec(c, v.elems[0], level, true) == Outcome(text, [])
    ensures ListPrefix(c, v, level, 1) == Outcome(ItemHeading(c, level) + text, [])
  {
    assert ListPrefix(c, v, level, 0) == Outcome("", []);
  }

  /** One more element of a slice printed so far without errors. */
  lemma CleanItem(c: Config, v: Value, level: nat, n: nat, before: string, text: string)
    requires |c.listSymbols| > 0 && level >= 1 && v.List? && 0 < n <= |v.elems|
    requires ListPrefix(c, v, level, n - 1) == Outcome(before, [])
    requires ValueSpec(c, v.elems[n - 1], level, true) == Outcome(text, [])
    ensures ListPrefix(c, v, level, n) == Outcome(before + ItemHeading(c, level) + text, [])
  {
  }

  /** `  *`: the bullet of the first list level under the default settings. */
  const ItemMark := "  " + "*"

  lemma DefaultItemHeading()
    ensures ItemHeading(Defaults, 1) == ItemMark
  {
    assert Indent(Defaults, 1) == "  ";
  }

  /** SimpleChild{Name: name, Property2: p2}, Property1 left at 0. */
  function Person(name: string, p2: Value): Value
  {
    Struct([
      Untagged("Name", Scalar(name, false)),
      Tagged("Property1", "-", Scalar("0", true)),
      Tagged("Property2", OmitEmptySuffix, p2)])
  }

  const Person1 := Person("Person1", Scalar("4.5", false))
  const Person2 := Person("Person2", Scalar("0", true))

  /** ` Name: Person2`, on the bullet's line. */
  const Person2Text := " " + "Name" + ":" + (" " + "Person2" + "\n")

  /** ` Name: Person1` on the bullet's line, then `    Property2: 4.5`. */
  const Person1Text := " " + "Name" + ":" + (" " + "Person1" + "\n") + ("    " + "Property2" + ":" + (" " + "4.5" + "\n"))

  /** In a list, the Name field of SimpleChild takes the short label. */
  lemma ListedNameLine(name: string, p2: Value)
    ensures StructPrefix(Defaults, Person(name, p2), 2, true, 1)
         == StructState(" " + "Name" + ":" + (" " + name + "\n"), false, [])
  {
    var f := Person(name, p2).fields[0];
    UntaggedPrinted(Defaults, "Name", f.value);
    ScalarLine(Defaults, f, 2, true, "Name");
  }

  /** `,omitempty` prints a non-empty value under the Go name. */
  lemma NonEmptyKept(c: Config, name: string, v: Value)
    requires c.tagName == DefaultTagName && IsExported(name) && !v.NilIface? && !IsNilOrEmpty(v)
    ensures PlanField(c, Tagged(name, OmitEmptySuffix, v)) == Emit(name)
  {
    EmptyTagUsesGoName(name, map[DefaultTagName := OmitEmptySuffix], c.tagName);
  }

  /** SimpleChild with an empty Property2, as a slice element: only its Name line. */
  lemma EmptyPropertyListed(name: string, t: string)
    ensures StructPrefix(Defaults, Person(name, Scalar(t, true)), 2, true, 3)
         == StructState(" " + "Name" + ":" + (" " + name + "\n"), false, [])
  {
    var v := Person(name, Scalar(t, true));
    ListedNameLine(name, Scalar(t, true));
    IgnoredSkipped(Defaults, "Property1", Scalar("0", true));
    SkippedField(Defaults, v, 2, true, 2);
    EmptyOmitted(Defaults, "Property2", Scalar(t, true));
    SkippedField(Defaults, v, 2, true, 3);
  }

  /** `    Property2: <t>`: a non-empty Property2, two levels down. */
  lemma Property2Line(name: string, t: string)
    ensures FieldDelta(Defaults, Person(name, Scalar(t, false)).fields[2], 2, false)
         == StructState("    " + "Property2" + ":" + (" " + t + "\n"), false, [])
  {
    var f := Person(name, Scalar(t, false)).fields[2];
    NonEmptyKept(Defaults, "Property2", f.value);
    ScalarLine(Defaults, f, 2, false, "Property2");
    assert Spaces(2) == "  ";
    assert Spaces(3) == "   ";
    assert Indent(Defaults, 2) == "    ";
  }

  /** Appending a printed field without errors, once the list flag has been cleared. */
  lemma ClearedStep(c: Config, v: Value, level: nat, inList: bool, n: nat, before: string, line: string)
    requires |c.listSymbols| > 0 && v.Struct? && 0 < n <= |v.fields|
    requires StructPrefix(c, v, level, inList, n - 1) == StructState(before, false, [])
    requires FieldDelta(c, v.fields[n - 1], level, false) == StructState(line, false, [])
    ensures StructPrefix(c, v, level, inList, n) == StructState(before + line, false, [])
  {
  }

  /** SimpleChild with a non-empty Property2, as a slice element: its Name line, then Property2 under it. */
  lemma FullPersonListed(name: string, t: string)
    ensures StructPrefix(Defaults, Person(name, Scalar(t, false)), 2, true, 3)
         == StructState(" " + "Name" + ":" + (" " + name + "\n") + ("    " + "Property2" + ":" + (" " + t + "\n")), false, [])
  {
    var v := Person(name, Scalar(t, false));
    ListedNameLine(name, Scalar(t, false));
    IgnoredSkipped(Defaults, "Property1", Scalar("0", true));
    SkippedField(Defaults, v, 2, true, 2);
    Property2Line(name, t);
    ClearedStep(Defaults, v, 2, true, 3, " " + "Name" + ":" + (" " + name + "\n"),
                "    " + "Property2" + ":" + (" " + t + "\n"));
  }

  /** The StructSlice of the simpleSlice example, one level down. */
  const StructSlice := List([Person1, Person2], false)

  /** A two-element slice whose elements print without errors: each after its bullet. */
  lemma TwoItems(c: Config, v: Value, level: nat, t1: string, t2: string)
    requires |c.listSymbols| > 0 && level >= 1 && v.List? && |v.elems| == 2
    requires ValueSpec(c, v.elems[0], level, true) == Outcome(t1, [])
    requires ValueSpec(c, v.elems[1], level, true) == Outcome(t2, [])
    ensures ListPrefix(c, v, level, 2) == Outcome(ItemHeading(c, level) + t1 + ItemHeading(c, level) + t2, [])
  {
    FirstItem(c, v, level, t1);
    CleanItem(c, v, level, 2, ItemHeading(c, level) + t1, t2);
  }

  /** A struct slice element whose fields print as `text` without errors. */
  lemma CleanListedStruct(c: Config, v: Value, level: nat, text: string)
    requires |c.listSymbols| > 0 && v.Struct?
    requires StructPrefix(c, v, level + 1, true, |v.fields|) == StructState(text, false, [])
    ensures ValueSpec(c, v, level, true) == Outcome(text, [])
  {
    ListedStruct(c, v, level);
  }

  lemma FullPersonItem(name: string, t: string)
    ensures ValueSpec(Defaults, Person(name, Scalar(t, false)), 1, true)
         == Outcome(" " + "Name" + ":" + (" " + name + "\n") + ("    " + "Property2" + ":" + (" " + t + "\n")), [])
  {
    FullPersonListed(name, t);
    CleanListedStruct(Defaults, Person(name, Scalar(t, false)), 1,
                      " " + "Name" + ":" + (" " + name + "\n") + ("    " + "Property2" + ":" + (" " + t + "\n")));
  }

  lemma EmptyPropertyItem(name: string, t: string)
    ensures ValueSpec(Defaults, Person(name, Scalar(t, true)), 1, true) == Outcome(" " + "Name" + ":" + (" " + name + "\n"), [])
  {
    EmptyPropertyListed(name, t);
    CleanListedStruct(Defaults, Person(name, Scalar(t, true)), 1, " " + "Name" + ":" + (" " + name + "\n"));
  }

  /** `  * Name: Person1`, `    Property2: 4.5`, `  * Name: Person2`. */
  lemma StructSliceLines()
    ensures ListPrefix(Defaults, StructSlice, 1, 2) == Outcome(ItemMark + Person1Text + ItemMark + Person2Text, [])
  {
    DefaultItemHeading();
    FullPersonItem("Person1", "4.5");
    EmptyPropertyItem("Person2", "0");
    TwoItems(Defaults, StructSlice, 1, Person1Text, Person2Text);
  }

  /** The IntSlice of the simpleSlice example. */
  const IntSlice := List([Scalar("1", false), Scalar("2", false), Scalar("3", false), Scalar("4", false), Scalar("5", false)], false)

  /** `  * 1` to `  * 5`, one per line. */
  const IntSliceText := ItemMark + (" " + "1" + "\n") + ItemMark + (" " + "2" + "\n") + ItemMark + (" " + "3" + "\n")
                      + ItemMark + (" " + "4" + "\n") + ItemMark + (" " + "5" + "\n")

  lemma IntSliceLines()
    ensures ListPrefix(Defaults, IntSlice, 1, 5) == Outcome(IntSliceText, [])
  {
    DefaultItemHeading();
    ScalarItem(Defaults, "1", false, 1);
    FirstItem(Defaults, IntSlice, 1, " " + "1" + "\n");
    ScalarItem(Defaults, "2", false, 1);
    CleanItem(Defaults, IntSlice, 1, 2, ItemMark + (" " + "1" + "\n"), " " + "2" + "\n");
    ScalarItem(Defaults, "3", false, 1);
    CleanItem(Defaults, IntSlice, 1, 3, ItemMark + (" " + "1" + "\n") + ItemMark + (" " + "2" + "\n"), " " + "3" + "\n");
    ScalarItem(Defaults, "4", false, 1);
    CleanItem(Defaults, IntSlice, 1, 4, ItemMark + (" " + "1" + "\n") + ItemMark + (" " + "2" + "\n") + ItemMark + (" " + "3" + "\n"),
              " " + "4" + "\n");
    ScalarItem(Defaults, "5", false, 1);
    CleanItem(Defaults, IntSlice, 1, 5, ItemMark + (" " + "1" + "\n") + ItemMark + (" " + "2" + "\n") + ItemMark + (" " + "3" + "\n")
                                        + ItemMark + (" " + "4" + "\n"), " " + "5" + "\n");
  }

  /** SliceTest{IntSlice: []int{1, 2, 3, 4, 5}, StructSlice: []SimpleChild{child1, child2}}. */
  const SliceRoot := Struct([Untagged("IntSlice", IntSlice), Untagged("StructSlice", StructSlice)])

  /** `IntSlice:` followed by its five items. */
  const IntSliceField := "IntSlice" + ":" + ("\n" + IntSliceText)

  /** `StructSlice:` followed by its two items. */
  const StructSliceField := "StructSlice" + ":" + ("\n" + (ItemMark + Person1Text + ItemMark + Person2Text))

  /** At the top level a label is the bare name and a colon. */
  lemma TopLabel(c: Config, name: string)
    ensures Label(c, name, 0, false) == name + ":"
  {
    assert Indent(c, 0) == "";
  }

  /** A printed slice field whose elements print as `text` without errors. */
  lemma CleanListField(c: Config, f: Field, name: string, text: string)
    requires |c.listSymbols| > 0 && PlanField(c, f) == Emit(name) && f.value.List?
    requires ListPrefix(c, f.value, 1, |f.value.elems|) == Outcome(text, [])
    ensures FieldDelta(c, f, 0, false) == StructState(name + ":" + ("\n" + text), false, [])
  {
    ListLine(c, f, 0, name);
    TopLabel(c, name);
  }

  lemma IntSliceFieldLines()
    ensures FieldDelta(Defaults, SliceRoot.fields[0], 0, false) == StructState(IntSliceField, false, [])
  {
    UntaggedPrinted(Defaults, "IntSlice", IntSlice);
    IntSliceLines();
    CleanListField(Defaults, SliceRoot.fields[0], "IntSlice", IntSliceText);
  }

  lemma StructSliceFieldLines()
    ensures FieldDelta(Defaults, SliceRoot.fields[1], 0, false) == StructState(StructSliceField, false, [])
  {
    UntaggedPrinted(Defaults, "StructSlice", StructSlice);
    StructSliceLines();
    CleanListField(Defaults, SliceRoot.fields[1], "StructSlice", ItemMark + Person1Text + ItemMark + Person2Text);
  }

  /** The documented output of the simpleSlice example (example_test.go:187-196). */
  lemma SimpleSliceDocument()
    ensures Document(Defaults, SliceRoot) == Outcome(IntSliceField + StructSliceField, [])
  {
    IntSliceFieldLines();
    CleanStep(Defaults, SliceRoot, 0, 1, "", IntSliceField);
    StructSliceFieldLines();
    CleanStep(Defaults, SliceRoot, 0, 2, IntSliceField, StructSliceField);
  }

  /** A two-key map whose values print without errors: each after its key heading, in sorted order. */
  lemma TwoKeys(c: Config, v: Value, level: nat, k1: string, k2: string, t1: string, t2: string)
    requires |c.listSymbols| > 0 && level >= 1 && v.Map? && |v.entries| == 2
    requires SortedKeys(v.entries) == [k1, k2]
    requires ValueSpec(c, SortedValue(v.entries, 0), level, true) == Outcome(t1, [])
    requires ValueSpec(c, SortedValue(v.entries, 1), level, true) == Outcome(t2, [])
    ensures MapPrefix(c, v, level, 2) == Outcome(KeyHeading(c, level, k1) + t1 + KeyHeading(c, level, k2) + t2, [])
  {
    FirstKey(c, v, level, k1, t1);
    NextKey(c, v, level, 2, KeyHeading(c, level, k1) + t1, k2, t2);
  }

  lemma FirstKey(c: Config, v: Value, level: nat, k: string, t: string)
    requires |c.listSymbols| > 0 && level >= 1 && v.Map? && 0 < |v.entries|
    requires SortedKeys(v.entries)[0] == k
    requires ValueSpec(c, SortedValue(v.entries, 0), level, true) == Outcome(t, [])
    ensures MapPrefix(c, v, level, 1) == Outcome(KeyHeading(c, level, k) + t, [])
  {
    assert MapPrefix(c, v, level, 0) == Outcome("", []);
  }

  lemma NextKey(c: Config, v: Value, level: nat, n: nat, before: string, k: string, t: string)
    requires |c.listSymbols| > 0 && level >= 1 && v.Map? && 0 < n <= |v.entries|
    requires MapPrefix(c, v, level, n - 1) == Outcome(before, [])
    requires SortedKeys(v.entries)[n - 1] == k
    requires ValueSpec(c, SortedValue(v.entries, n - 1), level, true) == Outcome(t, [])
    ensures MapPrefix(c, v, level, n) == Outcome(before + KeyHeading(c, level, k) + t, [])
  {
  }

  /** A map listing its keys out of order: its printed order is the sorted one. */
  lemma SortedPair(es: seq<Entry>, k1: string, k2: string)
    requires |es| == 2 && es[0].key == k2 && es[1].key == k1 && Le(k1, k2)
    ensures SortedKeys(es) == [k1, k2]
  {
    PairSorted(k1, k2);
    PairKeys(es);
    SortedUnique([k1, k2], SortedKeys(es));
  }

  lemma PairSorted(k1: string, k2: string)
    requires Le(k1, k2)
    ensures Sorted([k1, k2])
  {
  }

  lemma PairKeys(es: seq<Entry>)
    requires |es| == 2
    ensures multiset(KeyStrings(es)) == multiset([es[1].key, es[0].key])
  {
    assert KeyStrings(es) == [es[0].key, es[1].key];
  }

  /** `  * <k>:`: a key heading of the first map level under the default settings. */
  lemma DefaultKeyHeading(k: string)
    ensures KeyHeading(Defaults, 1, k) == ItemMark + " " + k + ":"
  {
    DefaultItemHeading();
  }

  /** The Map field of the simpleMap example, with Go listing "Two" before "One". */
  const StringMap := Map([Entry("Two", Person2), Entry("One", Person1)], false)

  /** `  * One: Name: Person1`, `    Property2: 4.5`, `  * Two: Name: Person2`. */
  lemma StringMapLines()
    ensures MapPrefix(Defaults, StringMap, 1, 2)
         == Outcome(ItemMark + " " + "One" + ":" + Person1Text + (ItemMark + " " + "Two" + ":") + Person2Text, [])
  {
    SortedPair(StringMap.entries, "One", "Two");
    assert SortedValue(StringMap.entries, 0) == Person1;
    assert SortedValue(StringMap.entries, 1) == Person2;
    FullPersonItem("Person1", "4.5");
    EmptyPropertyItem("Person2", "0");
    DefaultKeyHeading("One");
    DefaultKeyHeading("Two");
    TwoKeys(Defaults, StringMap, 1, "One", "Two", Person1Text, Person2Text);
  }

  /** The same map with reflection listing "One" first. */
  const StringMapSorted := Map([Entry("One", Person1), Entry("Two", Person2)], false)

  /** Go does not fix the order in which MapKeys lists "One" and "Two"; both listings print the same lines. */
  lemma StringMapEitherOrder()
    ensures MapPrefix(Defaults, StringMapSorted, 1, 2) == MapPrefix(Defaults, StringMap, 1, 2)
    ensures MapPrefix(Defaults, StringMapSorted, 1, 2) == Outcome(StringMapText, [])
  {
    assert StringMapSorted.entries == [StringMap.entries[1]] + [StringMap.entries[0]];
    assert multiset(StringMapSorted.entries) == multiset(StringMap.entries);
    RenderProps.MapOrderIrrelevant(Defaults, StringMapSorted, StringMap, 1);
    StringMapLines();
  }

  /** A printed field holding a map: its label, a line break, then the keys one level down. */
  lemma MapLine(c: Config, f: Field, level: nat, name: string)
    requires |c.listSymbols| > 0 && PlanField(c, f) == Emit(name) && f.value.Map?
    ensures var s := MapPrefix(c, f.value, level + 1, |f.value.entries|);
      FieldDelta(c, f, level, false) == StructState(Label(c, name, level, false) + ("\n" + s.out), false, Prefixed(name, s.errs))
  {
    assert ValueSpec(c, f.value, level, false) == KindSpec(c, f.value, f.value, level, false);
  }

  /** A printed top-level map field whose keys print as `text` without errors. */
  lemma CleanMapField(c: Config, f: Field, name: string, text: string)
    requires |c.listSymbols| > 0 && PlanField(c, f) == Emit(name) && f.value.Map?
    requires MapPrefix(c, f.value, 1, |f.value.entries|) == Outcome(text, [])
    ensures FieldDelta(c, f, 0, false) == StructState(name + ":" + ("\n" + text), false, [])
  {
    MapLine(c, f, 0, name);
    TopLabel(c, name);
  }

  /** The lines of the Map field. */
  const StringMapText := ItemMark + " " + "One" + ":" + Person1Text + (ItemMark + " " + "Two" + ":") + Person2Text

  /** fmt's rendering of the struct keys, `{Person1 0 4.5}` and `{Person2 0 0}`. */
  const Key1 := "{Person" + "1 0 4.5}"
  const Key2 := "{Person" + "2 0 0}"

  /** The StructMap field, with Go listing child2's key first. */
  const StructMap := Map([Entry(Key2, Scalar("2", false)), Entry(Key1, Scalar("1", false))], false)

  /** `  * {Person1 0 4.5}: 1`, `  * {Person2 0 0}: 2`. */
  const StructMapText := ItemMark + " " + Key1 + ":" + (" " + "1" + "\n") + (ItemMark + " " + Key2 + ":") + (" " + "2" + "\n")

  lemma KeyOrder()
    ensures Le(Key1, Key2)
  {
    assert Le("1 0 4.5}", "2 0 0}");
    LeCommonPrefix("{Person", "1 0 4.5}", "2 0 0}");
  }

  lemma StructMapValues()
    ensures SortedKeys(StructMap.entries) == [Key1, Key2]
    ensures SortedValue(StructMap.entries, 0) == Scalar("1", false)
    ensures SortedValue(StructMap.entries, 1) == Scalar("2", false)
  {
    KeyOrder();
    SortedPair(StructMap.entries, Key1, Key2);
  }

  lemma StructMapLines()
    ensures MapPrefix(Defaults, StructMap, 1, 2) == Outcome(StructMapText, [])
  {
    StructMapValues();
    ScalarItem(Defaults, "1", false, 1);
    ScalarItem(Defaults, "2", false, 1);
    DefaultKeyHeading(Key1);
    DefaultKeyHeading(Key2);
    TwoKeys(Defaults, StructMap, 1, Key1, Key2, " " + "1" + "\n", " " + "2" + "\n");
  }

  /** MapTest{Map: stringMap, StructMap: structMap}, Val1 left at 0. */
  const MapRoot := Struct([Untagged("Val1", Scalar("0", true)), Untagged("Map", StringMap), Untagged("StructMap", StructMap)])

  const Val1Text := "Val1" + ":" + (" " + "0" + "\n")
  const MapFieldText := "Map" + ":" + ("\n" + StringMapText)
  const StructMapFieldText := "StructMap" + ":" + ("\n" + StructMapText)

  lemma Val1Line()
    ensures FieldDelta(Defaults, MapRoot.fields[0], 0, false) == StructState(Val1Text, false, [])
  {
    var f := MapRoot.fields[0];
    UntaggedPrinted(Defaults, "Val1", f.value);
    ScalarLine(Defaults, f, 0, false, "Val1");
    TopLabel(Defaults, "Val1");
  }

  lemma MapFieldLines()
    ensures FieldDelta(Defaults, MapRoot.fields[1], 0, false) == StructState(MapFieldText, false, [])
  {
    UntaggedPrinted(Defaults, "Map", StringMap);
    StringMapLines();
    CleanMapField(Defaults, MapRoot.fields[1], "Map", StringMapText);
  }

  lemma StructMapFieldLines()
    ensures FieldDelta(Defaults, MapRoot.fields[2], 0, false) == StructState(StructMapFieldText, false, [])
  {
    UntaggedPrinted(Defaults, "StructMap", StructMap);
    StructMapLines();
    CleanMapField(Defaults, MapRoot.fields[2], "StructMap", StructMapText);
  }

  /** The documented output of the simpleMap example (example_test.go:155-162): keys in sorted order. */
  lemma SimpleMapDocument()
    ensures Document(Defaults, MapRoot) == Outcome(Val1Text + MapFieldText + StructMapFieldText, [])
  {
    Val1Line();
    CleanStep(Defaults, MapRoot, 0, 1, "", Val1Text);
    MapFieldLines();
    CleanStep(Defaults, MapRoot, 0, 2, Val1Text, MapFieldText);
    StructMapFieldLines();
    CleanStep(Defaults, MapRoot, 0, 3, Val1Text + MapFieldText, StructMapFieldText);
  }
}

